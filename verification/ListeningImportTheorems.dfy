/** When an import raises no issue, and what the test looks like then. */
module ListeningImportTheorems {
  import opened Common
  import opened Sorting
  import opened ListeningImport

  // ---- One group. ----

  /** The numbers are exactly the group's range, one each. */
  ghost predicate Consecutive(qs: seq<Question>, start: int, end: int)
  {
    |qs| == end - start + 1 && forall i | 0 <= i < |qs| :: qs[i].number == start + i
  }

  /** What a group must look like, whatever the other groups are. */
  ghost predicate Proper(b: Builder)
  {
    && 1 <= b.start <= b.end && !b.kind.Missing? && (b.limit == "" || b.limit in LIMITS)
    && Consecutive(Found(b), b.start, b.end)
    && (Completion(b.kind) ==> forall q | q in Found(b) :: ExactSlot(q))
  }

  ghost predicate Placeable(b: Builder, refs: map<int, Ref>, qs: seq<Question>)
  {
    && (forall i | 0 <= i < |qs| :: qs[i].number !in refs && IssuesOf(b, qs[i]) == [])
    && (forall i, j | 0 <= i < j < |qs| :: qs[i].number != qs[j].number)
  }

  ghost predicate Filed(b: Builder, group: nat, refs: map<int, Ref>, s: Placing)
  {
    && s.refs.Keys == refs.Keys + NumbersOf(s.placed)
    && (forall n | n in refs :: n in s.refs && s.refs[n] == refs[n])
    && (forall k | 0 <= k < |s.placed| ::
          && s.placed[k].number !in refs && s.placed[k].position == k + 1
          && s.refs[s.placed[k].number] == Ref(b.part, group, k, b.line))
  }

  lemma PlaceOneFiled(b: Builder, group: nat, refs: map<int, Ref>, s: Placing, q: Question)
    requires Filed(b, group, refs, s) && q.number !in s.refs
    ensures Filed(b, group, refs, Place(b, group, s, q))
  {
    var r := Place(b, group, s, q);
    assert forall k | 0 <= k < |s.placed| :: s.placed[k] in s.placed;
    assert r.placed[|s.placed|].number == q.number;
    forall n ensures n in NumbersOf(r.placed) <==> n in NumbersOf(s.placed) || n == q.number {
      assert r.placed[|s.placed|] in r.placed;
    }
    assert r.refs.Keys == s.refs.Keys + {q.number};
    assert r.refs.Keys == refs.Keys + NumbersOf(r.placed);
  }

  /** Whatever the issues: questions placed are numbered on, and the references find them. */
  lemma {:induction false} PlacedAreFiled(b: Builder, group: nat, refs: map<int, Ref>, qs: seq<Question>)
    ensures Filed(b, group, refs, PlaceAll(b, group, refs, qs))
  {
    if qs != [] {
      PlacedAreFiled(b, group, refs, qs[..|qs| - 1]);
      var s, q := PlaceAll(b, group, refs, qs[..|qs| - 1]), qs[|qs| - 1];
      if q.number !in s.refs { PlaceOneFiled(b, group, refs, s, q); }
    }
  }

  /** A number that has been placed has a reference already, so the check for repeated placeholders never applies. */
  lemma {:induction false} NeverADuplicatePlaceholder(b: Builder, group: nat, refs: map<int, Ref>, qs: seq<Question>)
    ensures forall x | x in PlaceAll(b, group, refs, qs).issues :: !x.code.DuplicatePlaceholder?
  {
    if qs != [] {
      var front := qs[..|qs| - 1];
      NeverADuplicatePlaceholder(b, group, refs, front);
      PlacedAreFiled(b, group, refs, front);
      assert NumbersOf(PlaceAll(b, group, refs, front).placed) <= PlaceAll(b, group, refs, front).refs.Keys;
    }
  }

  /** What has been placed or reported stays so. */
  lemma {:induction false} PlacingGrows(b: Builder, group: nat, refs: map<int, Ref>, qs: seq<Question>, k: nat)
    requires k <= |qs|
    ensures PlaceAll(b, group, refs, qs[..k]).issues <= PlaceAll(b, group, refs, qs).issues
    ensures forall n | n in PlaceAll(b, group, refs, qs[..k]).refs :: n in PlaceAll(b, group, refs, qs).refs
    decreases |qs|
  {
    if k == |qs| {
      assert qs[..k] == qs;
    } else {
      assert qs[..|qs| - 1][..k] == qs[..k];
      PlacingGrows(b, group, refs, qs[..|qs| - 1], k);
    }
  }

  lemma InPrefix(x: Issue, a: seq<Issue>, b: seq<Issue>)
    requires x in a && a <= b
    ensures x in b
  {
    assert b == a + b[|a|..];
  }

  lemma LastIsPlaced(b: Builder, group: nat, refs: map<int, Ref>, qs: seq<Question>)
    requires qs != []
    ensures qs[|qs| - 1].number in PlaceAll(b, group, refs, qs).refs
  {
    PlacedAreFiled(b, group, refs, qs[..|qs| - 1]);
  }

  lemma EarlierIsPlaced(b: Builder, group: nat, refs: map<int, Ref>, qs: seq<Question>, i: nat, j: nat)
    requires i < j < |qs|
    ensures qs[i].number in PlaceAll(b, group, refs, qs[..j]).refs
  {
    assert qs[..j][..i + 1] == qs[..i + 1];
    LastIsPlaced(b, group, refs, qs[..i + 1]);
    PlacingGrows(b, group, refs, qs[..j], i + 1);
  }

  lemma LastIsReported(b: Builder, group: nat, refs: map<int, Ref>, qs: seq<Question>, front: seq<Question>, q: Question)
    requires qs == front + [q] && q.number in PlaceAll(b, group, refs, front).refs
    ensures Issue(DuplicateQuestion, b.line, q.number) in PlaceAll(b, group, refs, qs).issues
  {
    var s, x := PlaceAll(b, group, refs, front), Issue(DuplicateQuestion, b.line, q.number);
    assert qs[..|qs| - 1] == front;
    assert PlaceAll(b, group, refs, qs).issues == s.issues + [x];
  }

  lemma ReportStays(b: Builder, group: nat, refs: map<int, Ref>, qs: seq<Question>, k: nat, x: Issue)
    requires k <= |qs| && x in PlaceAll(b, group, refs, qs[..k]).issues
    ensures x in PlaceAll(b, group, refs, qs).issues
  {
    PlacingGrows(b, group, refs, qs, k);
    InPrefix(x, PlaceAll(b, group, refs, qs[..k]).issues, PlaceAll(b, group, refs, qs).issues);
  }

  /** A number that occurs twice in a group is reported as a duplicate question, wherever it came from. */
  lemma RepeatedNumberIsReported(b: Builder, group: nat, refs: map<int, Ref>, qs: seq<Question>, i: nat, j: nat)
    requires i < j < |qs| && qs[i].number == qs[j].number
    ensures Issue(DuplicateQuestion, b.line, qs[j].number) in PlaceAll(b, group, refs, qs).issues
  {
    EarlierIsPlaced(b, group, refs, qs, i, j);
    LastIsReported(b, group, refs, qs[..j + 1], qs[..j], qs[j]);
    ReportStays(b, group, refs, qs, j + 1, Issue(DuplicateQuestion, b.line, qs[j].number));
  }

  lemma NumbersArePlaced(b: Builder, s: Placing, qs: seq<Question>)
    requires Whole(b, s, qs)
    ensures NumbersOf(s.placed) == NumbersOf(qs)
  {
    forall n | n in NumbersOf(qs) ensures n in NumbersOf(s.placed) {
      var i :| 0 <= i < |qs| && qs[i].number == n;
      assert s.placed[i] in s.placed && s.placed[i].number == n;
    }
    forall n | n in NumbersOf(s.placed) ensures n in NumbersOf(qs) {
      var i :| 0 <= i < |qs| && s.placed[i].number == n;
      assert qs[i] in qs;
    }
  }

  lemma OneMorePlaceable(b: Builder, refs: map<int, Ref>, qs: seq<Question>)
    requires qs != []
    ensures var front, q := qs[..|qs| - 1], qs[|qs| - 1];
            Placeable(b, refs, qs) <==>
            Placeable(b, refs, front) && q.number !in refs && q.number !in NumbersOf(front) && IssuesOf(b, q) == []
  {
    var front, q := qs[..|qs| - 1], qs[|qs| - 1];
    if Placeable(b, refs, qs) {
      forall x | x in front ensures x.number != q.number {
        var i :| 0 <= i < |front| && front[i] == x;
        assert qs[i].number != qs[|qs| - 1].number;
      }
    }
    if Placeable(b, refs, front) && q.number !in refs && q.number !in NumbersOf(front) && IssuesOf(b, q) == [] {
      forall i, j | 0 <= i < j < |qs| ensures qs[i].number != qs[j].number {
        if j == |qs| - 1 { assert front[i] in front; } else { assert front[i].number != front[j].number; }
      }
    }
  }

  ghost predicate Whole(b: Builder, s: Placing, qs: seq<Question>)
  {
    |s.placed| == |qs| && forall i | 0 <= i < |qs| :: s.placed[i] == Finished(b, qs[i], i + 1)
  }

  lemma PlaceOneMore(b: Builder, group: nat, s: Placing, qs: seq<Question>)
    requires qs != [] && Place(b, group, s, qs[|qs| - 1]).issues == []
    ensures s.issues == []
    ensures Whole(b, s, qs[..|qs| - 1]) ==> Whole(b, Place(b, group, s, qs[|qs| - 1]), qs)
  {
    assert s.issues <= Place(b, group, s, qs[|qs| - 1]).issues;
  }

  lemma {:induction false} PlacedWhole(b: Builder, group: nat, refs: map<int, Ref>, qs: seq<Question>)
    requires PlaceAll(b, group, refs, qs).issues == []
    ensures Whole(b, PlaceAll(b, group, refs, qs), qs)
  {
    if qs != [] {
      PlaceOneMore(b, group, PlaceAll(b, group, refs, qs[..|qs| - 1]), qs);
      PlacedWhole(b, group, refs, qs[..|qs| - 1]);
    }
  }

  lemma {:induction false} PlacedClean(b: Builder, group: nat, refs: map<int, Ref>, qs: seq<Question>)
    ensures PlaceAll(b, group, refs, qs).issues == [] <==> Placeable(b, refs, qs)
  {
    if qs != [] {
      var front, q := qs[..|qs| - 1], qs[|qs| - 1];
      var s := PlaceAll(b, group, refs, front);
      PlacedClean(b, group, refs, front);
      OneMorePlaceable(b, refs, qs);
      if s.issues == [] {
        PlacedWhole(b, group, refs, front);
        PlacedAreFiled(b, group, refs, front);
        NumbersArePlaced(b, s, front);
        assert q.number in s.refs <==> q.number in refs || q.number in NumbersOf(front);
      } else {
        assert Place(b, group, s, q).issues[0] == s.issues[0];
      }
    }
  }

  lemma {:induction false} NothingAbsent(b: Builder, seen: set<int>, low: nat, high: nat)
    ensures Absent(b, seen, low, high) == [] <==> forall n: nat | low <= n < high :: n in seen
    decreases high - low
  {
    if low < high { NothingAbsent(b, seen, low, high - 1); }
  }

  lemma {:induction false} RisingFillsRange(qs: seq<Question>, start: int, end: int)
    requires start <= end + 1
    requires forall i, j | 0 <= i < j < |qs| :: qs[i].number < qs[j].number
    requires forall q | q in qs :: start <= q.number <= end
    requires forall n | start <= n <= end :: n in NumbersOf(qs)
    ensures Consecutive(qs, start, end)
    decreases |qs|
  {
    if qs == [] {
      assert start !in NumbersOf(qs);
    } else {
      var front, last := qs[..|qs| - 1], qs[|qs| - 1];
      assert last in qs;
      assert end in NumbersOf(qs);
      var greatest :| greatest in qs && greatest.number == end;
      assert last.number == end;
      forall n | start <= n <= end - 1 ensures n in NumbersOf(front) {
        assert n in NumbersOf(qs);
        var q :| q in qs && q.number == n;
        assert q in front;
      }
      RisingFillsRange(front, start, end - 1);
    }
  }

  lemma ByNumberIsAnOrder()
    ensures StrictWeakOrder(ByNumber)
  {
  }

  /** Distinct numbers inside the range that leave none out are consecutive, and the other way round. */
  lemma WholeRange(b: Builder)
    requires 1 <= b.start <= b.end
    ensures Consecutive(Found(b), b.start, b.end) <==>
            && (forall q | q in Found(b) :: b.start <= q.number <= b.end)
            && (forall i, j | 0 <= i < j < |Found(b)| :: Found(b)[i].number != Found(b)[j].number)
            && (forall n | b.start <= n <= b.end :: n in NumbersOf(Found(b)))
  {
    var qs := Found(b);
    if Consecutive(qs, b.start, b.end) {
      forall n | b.start <= n <= b.end ensures n in NumbersOf(qs) {
        assert qs[n - b.start] in qs;
      }
    } else if (forall q | q in qs :: b.start <= q.number <= b.end)
            && (forall i, j | 0 <= i < j < |qs| :: qs[i].number != qs[j].number)
            && (forall n | b.start <= n <= b.end :: n in NumbersOf(qs)) {
      ByNumberIsAnOrder();
      SortIsOrdered(ByNumber, b.questions + FromContext(b.context));
      forall i, j | 0 <= i < j < |qs| ensures qs[i].number < qs[j].number {
        assert !ByNumber(qs[j], qs[i]);
      }
      RisingFillsRange(qs, b.start, b.end);
    }
  }

  /** All a group's issues. */
  function GroupIssues(b: Builder, group: nat, refs: map<int, Ref>): seq<Issue>
  {
    var p := PlaceAll(b, group, refs, Found(b));
    HeadIssues(b) + p.issues + Absent(b, NumbersOf(p.placed), b.start, b.end + 1)
  }

  lemma CleanGroup(b: Builder, group: nat, refs: map<int, Ref>)
    ensures GroupIssues(b, group, refs) == [] <==>
            Proper(b) && forall n | b.start <= n <= b.end :: n !in refs
  {
    var qs, p := Found(b), PlaceAll(b, group, refs, Found(b));
    PlacedClean(b, group, refs, qs);
    NothingAbsent(b, NumbersOf(p.placed), b.start, b.end + 1);
    assert GroupIssues(b, group, refs) == [] <==>
           HeadIssues(b) == [] && p.issues == [] && Absent(b, NumbersOf(p.placed), b.start, b.end + 1) == [];
    if HeadIssues(b) == [] {
      WholeRange(b);
      if p.issues == [] {
        PlacedWhole(b, group, refs, qs);
        NumbersArePlaced(b, p, qs);
      }
      CleanQuestions(b, refs);
    }
  }

  lemma {:induction false} AbsentCodes(b: Builder, seen: set<int>, low: nat, high: nat)
    ensures forall x | x in Absent(b, seen, low, high) :: x.code.RangeQuestionMissing?
    decreases high - low
  {
    if low < high { AbsentCodes(b, seen, low, high - 1); }
  }

  /** Every number the group repeats is among the issues. */
  ghost predicate ReportsRepeats(b: Builder, issues: seq<Issue>)
  {
    forall i, j | 0 <= i < j < |Found(b)| && Found(b)[i].number == Found(b)[j].number ::
      Issue(DuplicateQuestion, b.line, Found(b)[j].number) in issues
  }

  ghost predicate NoPlaceholderRepeated(issues: seq<Issue>)
  {
    forall x | x in issues :: !x.code.DuplicatePlaceholder?
  }

  lemma GroupReportsRepeats(b: Builder, group: nat, refs: map<int, Ref>)
    ensures ReportsRepeats(b, GroupIssues(b, group, refs)) && NoPlaceholderRepeated(GroupIssues(b, group, refs))
  {
    var p := PlaceAll(b, group, refs, Found(b));
    forall i, j | 0 <= i < j < |Found(b)| && Found(b)[i].number == Found(b)[j].number
      ensures Issue(DuplicateQuestion, b.line, Found(b)[j].number) in p.issues
    {
      RepeatedNumberIsReported(b, group, refs, Found(b), i, j);
    }
    NeverADuplicatePlaceholder(b, group, refs, Found(b));
    AbsentCodes(b, NumbersOf(p.placed), b.start, b.end + 1);
    assert NoPlaceholderRepeated(HeadIssues(b));
  }

  lemma ContextTwice(line: seq<Token>, number: int)
    requires SlotsOf(line) == [Slot(number, true)]
    ensures FromContext([line, line]) == [NewQuestion(number, line), NewQuestion(number, line)]
  {
    assert QuestionsOfLine(line, SlotsOf(line)) == [NewQuestion(number, line)];
    assert [line, line][..1] == [line] && [line][..0] == [];
    assert FromContext([line]) == FromContext([]) + [NewQuestion(number, line)];
  }

  lemma SortedTwice(q: Question)
    ensures Sort(ByNumber, [q, q]) == [q, q]
  {
    var sorted := Sort(ByNumber, [q, q]);
    SortIsPermutation(ByNumber, [q, q]);
    SameMembers([q, q], sorted);
    assert |multiset(sorted)| == |sorted| && |multiset([q, q])| == 2;
    assert sorted[0] in sorted && sorted[1] in sorted;
  }

  /** So a placeholder that is repeated in the context of a group is reported, but never as one. */
  lemma RepeatedPlaceholder(b: Builder, line: seq<Token>, number: int, group: nat, refs: map<int, Ref>)
    requires b.questions == [] && b.context == [line, line] && SlotsOf(line) == [Slot(number, true)]
    ensures Issue(DuplicateQuestion, b.line, number) in GroupIssues(b, group, refs)
    ensures Issue(DuplicatePlaceholder, b.line, number) !in GroupIssues(b, group, refs)
  {
    var q := NewQuestion(number, line);
    ContextTwice(line, number);
    SortedTwice(q);
    assert b.questions + FromContext(b.context) == [q, q];
    GroupReportsRepeats(b, group, refs);
    assert Found(b)[0].number == Found(b)[1].number == number;
  }

  lemma CleanQuestions(b: Builder, refs: map<int, Ref>)
    requires HeadIssues(b) == []
    ensures Placeable(b, refs, Found(b)) && (forall n: nat | b.start <= n < b.end + 1 :: n in NumbersOf(Found(b))) <==>
            Proper(b) && forall n | b.start <= n <= b.end :: n !in refs
  {
    var qs := Found(b);
    WholeRange(b);
    if Placeable(b, refs, qs) && forall n: nat | b.start <= n < b.end + 1 :: n in NumbersOf(qs) {
      forall q | q in qs ensures b.start <= q.number <= b.end && (Completion(b.kind) ==> ExactSlot(q)) {
        var i :| 0 <= i < |qs| && qs[i] == q;
        assert IssuesOf(b, qs[i]) == [];
      }
      forall n | b.start <= n <= b.end ensures n !in refs && n in NumbersOf(qs) {
        var m: nat := n;
        assert m in NumbersOf(qs);
        var i :| 0 <= i < |qs| && qs[i].number == n;
      }
    }
    if Proper(b) && forall n | b.start <= n <= b.end :: n !in refs {
      forall i | 0 <= i < |qs| ensures qs[i].number !in refs && IssuesOf(b, qs[i]) == [] {
        assert qs[i] in qs;
      }
    }
  }

  // ---- The whole test. ----

  ghost predicate Valid(parts: seq<Part>, p: nat, g: nat, i: nat)
  {
    p < |parts| && g < |parts[p].groups| && i < |parts[p].groups[g].questions|
  }

  function At(parts: seq<Part>, p: nat, g: nat, i: nat): Question
    requires Valid(parts, p, g, i)
  {
    parts[p].groups[g].questions[i]
  }

  /** Every reference finds the question of its number, and every question is found by its number. */
  ghost predicate Exact(parts: seq<Part>, refs: map<int, Ref>)
  {
    && (forall n | n in refs ::
          && Valid(parts, refs[n].part, refs[n].group, refs[n].question)
          && At(parts, refs[n].part, refs[n].group, refs[n].question).number == n)
    && (forall p: nat, g: nat, i: nat | Valid(parts, p, g, i) ::
          var n := At(parts, p, g, i).number;
          && n in refs && refs[n].part == p && refs[n].group == g && refs[n].question == i
          && At(parts, p, g, i).position == i + 1)
  }

  lemma BuildOneExact(s: Built, b: Builder)
    requires b.part < |s.parts| && Exact(s.parts, s.refs)
    ensures Exact(BuildOne(s, b).parts, BuildOne(s, b).refs)
  {
    var r, k := BuildOne(s, b), |s.parts[b.part].groups|;
    var p := PlaceAll(b, k, s.refs, Found(b));
    PlacedAreFiled(b, k, s.refs, Found(b));
    assert forall i | 0 <= i < |p.placed| :: p.placed[i] in p.placed;
    forall n | n in r.refs
      ensures Valid(r.parts, r.refs[n].part, r.refs[n].group, r.refs[n].question)
      ensures At(r.parts, r.refs[n].part, r.refs[n].group, r.refs[n].question).number == n
    {
      if n !in s.refs {
        var i :| 0 <= i < |p.placed| && p.placed[i].number == n;
      } else {
        assert Valid(s.parts, s.refs[n].part, s.refs[n].group, s.refs[n].question);
      }
    }
    forall a: nat, g: nat, i: nat | Valid(r.parts, a, g, i)
      ensures var n := At(r.parts, a, g, i).number;
              && n in r.refs && r.refs[n].part == a && r.refs[n].group == g && r.refs[n].question == i
              && At(r.parts, a, g, i).position == i + 1
    {
      if a == b.part && g == k {
        assert At(r.parts, a, g, i) == p.placed[i];
      } else {
        assert Valid(s.parts, a, g, i) && At(s.parts, a, g, i) == At(r.parts, a, g, i);
      }
    }
  }

  /** In whatever state a text is: references and questions agree. */
  lemma {:induction false} BuildExact(parts: seq<Part>, issues: seq<Issue>, builders: seq<Builder>)
    requires (forall b | b in builders :: b.part < |parts|) && forall p | p in parts :: p.groups == []
    ensures Exact(Build(parts, issues, builders).parts, Build(parts, issues, builders).refs)
  {
    if builders == [] {
      assert forall p: nat | p < |parts| :: parts[p] in parts;
    } else {
      BuildExact(parts, issues, builders[..|builders| - 1]);
      BuildOneExact(Build(parts, issues, builders[..|builders| - 1]), builders[|builders| - 1]);
    }
  }

  ghost predicate DisjointRanges(a: Builder, b: Builder) { a.end < b.start || b.end < a.start }

  ghost predicate AllProper(builders: seq<Builder>)
  {
    && (forall i | 0 <= i < |builders| :: Proper(builders[i]))
    && (forall i, j | 0 <= i < j < |builders| :: DisjointRanges(builders[i], builders[j]))
  }

  ghost predicate Covers(builders: seq<Builder>, n: int)
  {
    exists b :: b in builders && b.start <= n <= b.end
  }

  /** The references after a clean group: the earlier ones and the group's range. */
  lemma CleanRefs(s: Built, b: Builder)
    requires b.part < |s.parts| && GroupIssues(b, |s.parts[b.part].groups|, s.refs) == []
    ensures forall n :: n in BuildOne(s, b).refs <==> n in s.refs || b.start <= n <= b.end
  {
    var k := |s.parts[b.part].groups|;
    var p := PlaceAll(b, k, s.refs, Found(b));
    CleanGroup(b, k, s.refs);
    PlacedAreFiled(b, k, s.refs, Found(b));
    PlacedWhole(b, k, s.refs, Found(b));
    NumbersArePlaced(b, p, Found(b));
    WholeRange(b);
  }

  lemma CoversOneMore(builders: seq<Builder>, n: int)
    requires builders != []
    ensures var b := builders[|builders| - 1];
            Covers(builders, n) <==> Covers(builders[..|builders| - 1], n) || b.start <= n <= b.end
  {
    var front, b := builders[..|builders| - 1], builders[|builders| - 1];
    assert builders == front + [b];
  }

  lemma Regroup(a: seq<Issue>, b: seq<Issue>, c: seq<Issue>, d: seq<Issue>)
    ensures a + b + c + d == a + (b + c + d)
  {
  }

  lemma BuildOneIssues(s: Built, b: Builder)
    requires b.part < |s.parts|
    ensures BuildOne(s, b).issues == s.issues + GroupIssues(b, |s.parts[b.part].groups|, s.refs)
  {
    var p := PlaceAll(b, |s.parts[b.part].groups|, s.refs, Found(b));
    Regroup(s.issues, HeadIssues(b), p.issues, Absent(b, NumbersOf(p.placed), b.start, b.end + 1));
  }

  ghost predicate AllReported(builders: seq<Builder>, issues: seq<Issue>)
  {
    NoPlaceholderRepeated(issues) && forall k | 0 <= k < |builders| :: ReportsRepeats(builders[k], issues)
  }

  lemma ReportedStays(b: Builder, issues: seq<Issue>, more: seq<Issue>)
    ensures ReportsRepeats(b, issues) ==> ReportsRepeats(b, issues + more)
    ensures ReportsRepeats(b, more) ==> ReportsRepeats(b, issues + more)
  {
  }

  lemma ReportedOneMore(front: seq<Builder>, b: Builder, issues: seq<Issue>, more: seq<Issue>)
    requires AllReported(front, issues) && ReportsRepeats(b, more) && NoPlaceholderRepeated(more)
    ensures AllReported(front + [b], issues + more)
  {
    forall k | 0 <= k < |front| + 1 ensures ReportsRepeats((front + [b])[k], issues + more) {
      ReportedStays((front + [b])[k], issues, more);
    }
  }

  /** Of a whole test: every number a group repeats is reported, and none as a repeated placeholder. */
  lemma {:induction false} BuildReportsRepeats(parts: seq<Part>, issues: seq<Issue>, builders: seq<Builder>)
    requires (forall b | b in builders :: b.part < |parts|) && NoPlaceholderRepeated(issues)
    ensures AllReported(builders, Build(parts, issues, builders).issues)
  {
    if builders != [] {
      var front, b := builders[..|builders| - 1], builders[|builders| - 1];
      BuildReportsRepeats(parts, issues, front);
      var s := Build(parts, issues, front);
      var more := GroupIssues(b, |s.parts[b.part].groups|, s.refs);
      BuildOneIssues(s, b);
      GroupReportsRepeats(b, |s.parts[b.part].groups|, s.refs);
      ReportedOneMore(front, b, s.issues, more);
      FrontAndLast(builders);
    }
  }

  lemma FrontAndLast(builders: seq<Builder>)
    requires builders != []
    ensures builders == builders[..|builders| - 1] + [builders[|builders| - 1]]
  {
  }

  ghost predicate CleanSoFar(s: Built, issues: seq<Issue>, builders: seq<Builder>)
  {
    && (s.issues == [] <==> issues == [] && AllProper(builders))
    && (s.issues == [] ==> forall n :: n in s.refs <==> Covers(builders, n))
  }

  lemma CleanOneMore(s: Built, issues: seq<Issue>, builders: seq<Builder>)
    requires builders != [] && builders[|builders| - 1].part < |s.parts| && CleanSoFar(s, issues, builders[..|builders| - 1])
    ensures CleanSoFar(BuildOne(s, builders[|builders| - 1]), issues, builders)
  {
    var b := builders[|builders| - 1];
    var k := |s.parts[b.part].groups|;
    BuildOneIssues(s, b);
    if s.issues == [] {
      CleanGroup(b, k, s.refs);
      OneMoreProper(builders, s.refs);
      if GroupIssues(b, k, s.refs) == [] {
        CleanRefs(s, b);
        forall n ensures n in BuildOne(s, b).refs <==> Covers(builders, n) { CoversOneMore(builders, n); }
      }
    } else {
      assert AllProper(builders) ==> AllProper(builders[..|builders| - 1]);
    }
  }

  /**
   Building raises no issue exactly when every group is proper by itself and no two ranges overlap; then the
   references are exactly the numbers of the ranges.
   */
  lemma {:induction false} CleanBuild(parts: seq<Part>, issues: seq<Issue>, builders: seq<Builder>)
    requires forall b | b in builders :: b.part < |parts|
    ensures CleanSoFar(Build(parts, issues, builders), issues, builders)
  {
    if builders != [] {
      CleanBuild(parts, issues, builders[..|builders| - 1]);
      CleanOneMore(Build(parts, issues, builders[..|builders| - 1]), issues, builders);
    }
  }

  lemma OneMoreProper(builders: seq<Builder>, refs: map<int, Ref>)
    requires builders != [] && AllProper(builders[..|builders| - 1])
    requires forall n :: n in refs <==> Covers(builders[..|builders| - 1], n)
    ensures var b := builders[|builders| - 1];
            AllProper(builders) <==> Proper(b) && forall n | b.start <= n <= b.end :: n !in refs
  {
    var front, b := builders[..|builders| - 1], builders[|builders| - 1];
    if AllProper(builders) {
      forall x | x in front ensures DisjointRanges(x, b) {
        var i :| 0 <= i < |front| && front[i] == x;
        assert DisjointRanges(builders[i], builders[|builders| - 1]);
      }
    }
    if Proper(b) && forall n | b.start <= n <= b.end :: n !in refs {
      forall i | 0 <= i < |front| ensures DisjointRanges(builders[i], b) {
        var x := front[i];
        assert x in front && Proper(x);
        var n := if x.start < b.start then b.start else x.start;
        assert x.start <= n <= x.end ==> Covers(front, n);
        assert b.start <= n <= b.end ==> n !in refs;
      }
      forall i, j | 0 <= i < j < |builders| ensures DisjointRanges(builders[i], builders[j]) {
        if j < |front| { assert DisjointRanges(front[i], front[j]); }
      }
    }
  }
}

/**
 What an import makes of a text, said of what stands in the text: which questions a written group asks, and what each
 of them must look like in the test.
 */
module ListeningWritten {
  import opened Common
  import opened Sorting
  import opened ListeningImport
  import opened ListeningImportTheorems
  import opened ListeningAnswers
  import opened ListeningSave
  import opened ListeningImportSound
  import opened ListeningReader
  import opened ListeningRoundTrip

  // ---- What stands in a written group. ----

  /** Where a group asks a question: with a line of its own, or with a placeholder in the context. */
  datatype Spot = Own(question: nat) | Gap(line: nat, token: nat)

  predicate IsSpot(b: Builder, s: Spot)
  {
    match s
    case Own(i) => i < |b.questions|
    case Gap(l, t) => l < |b.context| && t < |b.context[l]| && b.context[l][t].Slot?
  }

  function NumberAt(b: Builder, s: Spot): int
    requires IsSpot(b, s)
  {
    match s case Own(i) => b.questions[i].number case Gap(l, t) => b.context[l][t].number
  }

  function PromptAt(b: Builder, s: Spot): seq<Token>
    requires IsSpot(b, s)
  {
    match s case Own(i) => b.questions[i].prompt case Gap(l, t) => b.context[l]
  }

  /** The options written under the question, or those of the group when there are none. */
  function OptionsAt(b: Builder, s: Spot): seq<Choice>
    requires IsSpot(b, s)
  {
    if s.Own? && b.questions[s.question].options != [] then b.questions[s.question].options else b.shared
  }

  predicate OnlySlotAt(prompt: seq<Token>, n: int, k: nat)
  {
    k < |prompt| && prompt[k] == Slot(n, true) && forall j | 0 <= j < |prompt| && j != k :: !prompt[j].Slot?
  }

  /** The prompt has one placeholder, and it is this number's. */
  ghost predicate OnlySlot(prompt: seq<Token>, n: int) { exists k: nat :: OnlySlotAt(prompt, n, k) }

  /** In a completion the one placeholder becomes the place of the answer; everything else stays. */
  ghost predicate PromptFrom(kind: Kind, n: int, written: seq<Token>, shown: seq<Token>)
  {
    if Completion(kind) && OnlySlot(written, n) then exists k: nat :: OnlySlotAt(written, n, k) && shown == written[k := AnswerSlot]
    else shown == written
  }

  /** The question as the group asks it at `s`. */
  ghost predicate AskedAt(b: Builder, s: Spot, q: Question)
  {
    IsSpot(b, s) && q.number == NumberAt(b, s) && q.options == OptionsAt(b, s) && PromptFrom(b.kind, q.number, PromptAt(b, s), q.prompt)
  }

  ghost predicate AskedSomewhere(b: Builder, q: Question) { exists s :: AskedAt(b, s, q) }

  ghost predicate Untouched(q: Question) { q.answer.NoAnswer? && q.explanation == "" }

  // ---- Where the questions that a group is built from come from. ----

  lemma {:induction false} SlotPlaces(prompt: seq<Token>) returns (ts: seq<nat>)
    ensures |ts| == |SlotsOf(prompt)|
    ensures forall i | 0 <= i < |ts| :: ts[i] < |prompt| && prompt[ts[i]].Slot? && SlotsOf(prompt)[i] == prompt[ts[i]]
    ensures forall i, j | 0 <= i < j < |ts| :: ts[i] != ts[j]
    ensures forall t: nat | t < |prompt| && prompt[t].Slot? :: t in ts
  {
    ts := [];
    if prompt != [] {
      var front := prompt[..|prompt| - 1];
      var before := SlotPlaces(front);
      ts := before + if prompt[|prompt| - 1].Slot? then [|prompt| - 1] else [];
      forall t: nat | t < |prompt| && prompt[t].Slot? ensures t in ts {
        if t < |front| { assert front[t].Slot?; }
      }
    }
  }

  /** The spots, each once, in the order of the questions they are asked by. */
  ghost predicate Spots(b: Builder, ss: seq<Spot>, qs: seq<Question>)
  {
    && |ss| == |qs| && (forall i | 0 <= i < |ss| :: SpotOf(b, ss[i], qs[i]))
    && (forall i, j | 0 <= i < j < |ss| :: ss[i] != ss[j])
  }

  ghost predicate SpotOf(b: Builder, s: Spot, q: Question)
  {
    IsSpot(b, s) && q == if s.Own? then b.questions[s.question] else NewQuestion(NumberAt(b, s), PromptAt(b, s))
  }

  function GapsOf(line: nat, ts: seq<nat>): seq<Spot> { seq(|ts|, i requires 0 <= i < |ts| => Gap(line, ts[i])) }

  lemma LineSpots(b: Builder, l: nat) returns (ss: seq<Spot>)
    requires l < |b.context|
    ensures (SlotsAreSlots(b.context[l]); Spots(b, ss, QuestionsOfLine(b.context[l], SlotsOf(b.context[l]))))
    ensures forall s | s in ss :: s.Gap? && s.line == l
    ensures forall t: nat | IsSpot(b, Gap(l, t)) :: Gap(l, t) in ss
  {
    SlotsAreSlots(b.context[l]);
    var ts := SlotPlaces(b.context[l]);
    ss := GapsOf(l, ts);
    forall t: nat | IsSpot(b, Gap(l, t)) ensures Gap(l, t) in ss {
      var i :| 0 <= i < |ts| && ts[i] == t;
      assert ss[i] == Gap(l, t);
    }
  }

  lemma SpotsConcat(b: Builder, ss: seq<Spot>, qs: seq<Question>, ss': seq<Spot>, qs': seq<Question>)
    requires Spots(b, ss, qs) && Spots(b, ss', qs') && forall s | s in ss :: s !in ss'
    ensures Spots(b, ss + ss', qs + qs')
  {
    var all := ss + ss';
    forall i, j | 0 <= i < j < |all| ensures all[i] != all[j] {
      if i < |ss| <= j { assert ss[i] in ss && ss'[j - |ss|] in ss'; }
    }
  }

  lemma {:induction false} ContextSpots(b: Builder, n: nat) returns (ss: seq<Spot>)
    requires n <= |b.context|
    ensures Spots(b, ss, FromContext(b.context[..n]))
    ensures forall s | s in ss :: s.Gap? && s.line < n
    ensures forall l: nat, t: nat | l < n && IsSpot(b, Gap(l, t)) :: Gap(l, t) in ss
  {
    ss := [];
    if n > 0 {
      var before := ContextSpots(b, n - 1);
      var here := LineSpots(b, n - 1);
      assert b.context[..n][..n - 1] == b.context[..n - 1];
      SlotsAreSlots(b.context[n - 1]);
      SpotsConcat(b, before, FromContext(b.context[..n - 1]),
                  here, QuestionsOfLine(b.context[n - 1], SlotsOf(b.context[n - 1])));
      ss := before + here;
    }
  }

  function OwnSpots(b: Builder): seq<Spot> { seq(|b.questions|, i requires 0 <= i < |b.questions| => Own(i)) }

  /** Every spot of the group, each once. */
  lemma AllSpots(b: Builder) returns (ss: seq<Spot>)
    ensures Spots(b, ss, b.questions + FromContext(b.context))
    ensures forall s :: IsSpot(b, s) <==> s in ss
  {
    var gaps := ContextSpots(b, |b.context|);
    assert b.context[..|b.context|] == b.context;
    var own := OwnSpots(b);
    assert forall s | s in own :: s.Own?;
    SpotsConcat(b, own, b.questions, gaps, FromContext(b.context));
    ss := own + gaps;
    forall s ensures IsSpot(b, s) <==> s in ss {
      if IsSpot(b, s) && s.Own? { assert own[s.question] == s; }
      if s in ss { var i :| 0 <= i < |ss| && ss[i] == s; }
    }
  }

  lemma FoundHasSpot(b: Builder, q: Question) returns (s: Spot)
    requires q in Found(b)
    ensures SpotOf(b, s, q)
  {
    var ss := AllSpots(b);
    var all := b.questions + FromContext(b.context);
    SortIsPermutation(ByNumber, all);
    SameMembers(all, Found(b));
    var i :| 0 <= i < |all| && all[i] == q;
    s := ss[i];
  }

  // ---- Prompts. ----

  lemma {:induction false} Replaced(prompt: seq<Token>, k: nat)
    requires k < |prompt| && prompt[k].Slot? && forall j | 0 <= j < k :: !prompt[j].Slot?
    ensures ReplaceSlot(prompt) == prompt[k := AnswerSlot]
  {
    if k > 0 {
      Replaced(prompt[1..], k - 1);
      assert [prompt[0]] + prompt[1..][k - 1 := AnswerSlot] == prompt[k := AnswerSlot];
    } else {
      assert [AnswerSlot] + prompt[1..] == prompt[0 := AnswerSlot];
    }
  }

  lemma FirstTwoDiffer(ts: seq<nat>)
    ensures (forall i, j | 0 <= i < j < |ts| :: ts[i] != ts[j]) ==> |ts| <= 1 || ts[0] != ts[1]
  {
  }

  lemma ExactSlotIsOnlySlot(q: Question)
    ensures ExactSlot(q) <==> OnlySlot(q.prompt, q.number)
  {
    var ts := SlotPlaces(q.prompt);
    if ExactSlot(q) {
      assert SlotsOf(q.prompt)[0] == q.prompt[ts[0]];
      assert OnlySlotAt(q.prompt, q.number, ts[0]);
    }
    if k: nat :| OnlySlotAt(q.prompt, q.number, k) {
      assert k in ts;
      assert forall i | 0 <= i < |ts| :: ts[i] == k;
      FirstTwoDiffer(ts);
      assert |ts| == 1;
    }
  }

  /** A placed question is as it was asked. */
  lemma FinishedAsAsked(b: Builder, q: Question, s: Spot, position: nat)
    requires SpotOf(b, s, q)
    ensures AskedAt(b, s, Finished(b, q, position))
  {
    ExactSlotIsOnlySlot(q);
    if k: nat :| OnlySlotAt(q.prompt, q.number, k) { Replaced(q.prompt, k); }
  }

  // ---- When a group is proper. ----

  ghost predicate NumbersDiffer(b: Builder)
  {
    forall s, s' | IsSpot(b, s) && IsSpot(b, s') && s != s' :: NumberAt(b, s) != NumberAt(b, s')
  }

  /** The group asks for exactly the numbers of its range, each once. */
  ghost predicate AsksOnce(b: Builder)
  {
    && (forall s | IsSpot(b, s) :: b.start <= NumberAt(b, s) <= b.end)
    && NumbersDiffer(b)
    && (forall n | b.start <= n <= b.end :: IsAsked(b, n))
  }

  ghost predicate IsAsked(b: Builder, n: int) { exists s :: IsSpot(b, s) && NumberAt(b, s) == n }

  ghost predicate Complete(b: Builder)
  {
    && 1 <= b.start <= b.end && (b.limit == "" || b.limit in LIMITS) && AsksOnce(b)
    && (Completion(b.kind) ==> forall s | IsSpot(b, s) :: OnlySlot(PromptAt(b, s), NumberAt(b, s)))
  }

  lemma FoundIsPermutation(b: Builder)
    ensures multiset(Found(b)) == multiset(b.questions + FromContext(b.context))
    ensures forall q :: q in Found(b) <==> q in b.questions + FromContext(b.context)
  {
    SortIsPermutation(ByNumber, b.questions + FromContext(b.context));
    SameMembers(b.questions + FromContext(b.context), Found(b));
  }

  lemma SpotIsFound(b: Builder, s: Spot) returns (q: Question)
    requires IsSpot(b, s)
    ensures q in Found(b) && SpotOf(b, s, q)
  {
    var ss := AllSpots(b);
    var all := b.questions + FromContext(b.context);
    FoundIsPermutation(b);
    var i :| 0 <= i < |ss| && ss[i] == s;
    q := all[i];
  }

  lemma RangeOfFound(b: Builder)
    ensures (forall q | q in Found(b) :: b.start <= q.number <= b.end)
            <==> forall s | IsSpot(b, s) :: b.start <= NumberAt(b, s) <= b.end
  {
    forall q | q in Found(b) ensures exists s :: IsSpot(b, s) && NumberAt(b, s) == q.number { var s := FoundHasSpot(b, q); }
    forall s | IsSpot(b, s) ensures exists q :: q in Found(b) && NumberAt(b, s) == q.number { var q := SpotIsFound(b, s); }
  }

  lemma NumbersOfFound(b: Builder, n: int)
    ensures n in NumbersOf(Found(b)) <==> IsAsked(b, n)
  {
    if n in NumbersOf(Found(b)) {
      var q :| q in Found(b) && q.number == n;
      var s := FoundHasSpot(b, q);
    }
    if s :| IsSpot(b, s) && NumberAt(b, s) == n { var q := SpotIsFound(b, s); }
  }

  lemma SlotsOfFound(b: Builder)
    ensures (forall q | q in Found(b) :: ExactSlot(q)) <==> forall s | IsSpot(b, s) :: OnlySlot(PromptAt(b, s), NumberAt(b, s))
  {
    forall q | q in Found(b)
      ensures exists s :: IsSpot(b, s) && (ExactSlot(q) <==> OnlySlot(PromptAt(b, s), NumberAt(b, s)))
    {
      var s := FoundHasSpot(b, q);
      ExactSlotIsOnlySlot(q);
    }
    forall s | IsSpot(b, s)
      ensures exists q :: q in Found(b) && (ExactSlot(q) <==> OnlySlot(PromptAt(b, s), NumberAt(b, s)))
    {
      var q := SpotIsFound(b, s);
      ExactSlotIsOnlySlot(q);
    }
  }

  lemma DistinctWhenSorted(b: Builder)
    ensures (forall i, j | 0 <= i < j < |Found(b)| :: Found(b)[i].number != Found(b)[j].number)
            <==> Distinct((q: Question) => q.number, b.questions + FromContext(b.context))
  {
    var all, key := b.questions + FromContext(b.context), (q: Question) => q.number;
    FoundIsPermutation(b);
    if Distinct(key, Found(b)) { DistinctPermutation(key, Found(b), all); }
    if Distinct(key, all) { DistinctPermutation(key, all, Found(b)); }
    assert Distinct(key, Found(b)) <==> forall i, j | 0 <= i < j < |Found(b)| :: Found(b)[i].number != Found(b)[j].number;
  }

  lemma DistinctSpots(b: Builder, ss: seq<Spot>, all: seq<Question>)
    requires Spots(b, ss, all) && forall s :: IsSpot(b, s) <==> s in ss
    ensures Distinct((q: Question) => q.number, all) <==> NumbersDiffer(b)
  {
    var key := (q: Question) => q.number;
    assert forall i | 0 <= i < |ss| :: NumberAt(b, ss[i]) == all[i].number;
    if Distinct(key, all) {
      forall s, s' | IsSpot(b, s) && IsSpot(b, s') && s != s' ensures NumberAt(b, s) != NumberAt(b, s') {
        var i :| 0 <= i < |ss| && ss[i] == s;
        var j :| 0 <= j < |ss| && ss[j] == s';
        assert key(all[i]) != key(all[j]);
      }
    }
    if NumbersDiffer(b) {
      forall i, j | 0 <= i < j < |all| ensures key(all[i]) != key(all[j]) {
        assert ss[i] in ss && ss[j] in ss;
      }
    }
  }

  lemma DistinctFound(b: Builder)
    ensures (forall i, j | 0 <= i < j < |Found(b)| :: Found(b)[i].number != Found(b)[j].number) <==> NumbersDiffer(b)
  {
    var ss := AllSpots(b);
    DistinctWhenSorted(b);
    DistinctSpots(b, ss, b.questions + FromContext(b.context));
  }

  /** A group raises no issue by itself exactly when it is complete and has a type. */
  lemma ProperIsComplete(b: Builder)
    ensures Proper(b) <==> Complete(b) && !b.kind.Missing?
  {
    if 1 <= b.start <= b.end {
      WholeRange(b);
      RangeOfFound(b);
      DistinctFound(b);
      SlotsOfFound(b);
      forall n ensures n in NumbersOf(Found(b)) <==> IsAsked(b, n) { NumbersOfFound(b, n); }
    }
  }

  // ---- What becomes of a group, whatever the issues. ----

  ghost predicate AllUntouched(qs: seq<Question>) { forall q | q in qs :: Untouched(q) }

  /** The group at this place is built from `b`: all its questions are asked there. */
  ghost predicate BuiltFrom(b: Builder, index: nat, g: Group)
  {
    && g.position == index + 1 && g.kind == b.kind && g.shared == b.shared && (g.limited <==> b.limit in LIMITS)
    && AllPlacedFrom(b, g.questions)
  }

  ghost predicate PlacedFrom(b: Builder, q: Question)
  {
    AskedSomewhere(b, q) && (AllUntouched(b.questions) ==> Untouched(q))
  }

  ghost predicate AllPlacedFrom(b: Builder, qs: seq<Question>) { forall i | 0 <= i < |qs| :: PlacedFrom(b, qs[i]) }

  lemma OneMorePlaced(b: Builder, qs: seq<Question>, q: Question)
    requires AllPlacedFrom(b, qs) && PlacedFrom(b, q)
    ensures AllPlacedFrom(b, qs + [q])
  {
  }

  lemma FinishedIsPlaced(b: Builder, q: Question, position: nat)
    requires q in Found(b)
    ensures PlacedFrom(b, Finished(b, q, position))
  {
    var s := FoundHasSpot(b, q);
    FinishedAsAsked(b, q, s, position);
    assert s.Own? ==> q in b.questions;
  }

  lemma {:induction false} PlacedAsAsked(b: Builder, group: nat, refs: map<int, Ref>, qs: seq<Question>)
    requires forall q | q in qs :: q in Found(b)
    ensures AllPlacedFrom(b, PlaceAll(b, group, refs, qs).placed)
  {
    if qs != [] {
      var s, q := PlaceAll(b, group, refs, qs[..|qs| - 1]), qs[|qs| - 1];
      PlacedAsAsked(b, group, refs, qs[..|qs| - 1]);
      FinishedIsPlaced(b, q, |s.placed| + 1);
      OneMorePlaced(b, s.placed, Finished(b, q, |s.placed| + 1));
    }
  }

  /** How many of the groups belong to part `p`. */
  function CountPart(builders: seq<Builder>, p: nat): nat
  {
    if builders == [] then 0
    else CountPart(builders[..|builders| - 1], p) + if builders[|builders| - 1].part == p then 1 else 0
  }

  lemma OneBuilt(s: Built, b: Builder)
    requires b.part < |s.parts|
    ensures var r, k := BuildOne(s, b), |s.parts[b.part].groups|;
            && |r.parts| == |s.parts| && (forall p | 0 <= p < |s.parts| && p != b.part :: r.parts[p] == s.parts[p])
            && r.parts[b.part] == s.parts[b.part].(groups := s.parts[b.part].groups + [r.parts[b.part].groups[k]])
            && BuiltFrom(b, k, r.parts[b.part].groups[k])
  {
    var k := |s.parts[b.part].groups|;
    var placed := PlaceAll(b, k, s.refs, Found(b)).placed;
    PlacedAsAsked(b, k, s.refs, Found(b));
    assert BuiltFrom(b, k, Group(k + 1, b.kind, b.shared, b.limit in LIMITS, placed));
    assert BuildOne(s, b).parts[b.part].groups[k] == Group(k + 1, b.kind, b.shared, b.limit in LIMITS, placed);
  }

  /** The parts have as many groups as belong to them. */
  ghost predicate Counted(parts: seq<Part>, r: Built, builders: seq<Builder>)
  {
    && |r.parts| == |parts|
    && forall p | 0 <= p < |parts| :: r.parts[p].position == parts[p].position && |r.parts[p].groups| == CountPart(builders, p)
  }

  lemma {:induction false} BuildCounts(parts: seq<Part>, issues: seq<Issue>, builders: seq<Builder>)
    requires (forall b | b in builders :: b.part < |parts|) && forall p | p in parts :: p.groups == []
    ensures Counted(parts, Build(parts, issues, builders), builders)
  {
    if builders != [] {
      var front, b := builders[..|builders| - 1], builders[|builders| - 1];
      BuildCounts(parts, issues, front);
      OneBuilt(Build(parts, issues, front), b);
    }
  }

  /** The `k`-th group comes after those of its part before it. */
  ghost predicate BuiltAt(parts: seq<Part>, builders: seq<Builder>, k: nat)
    requires k < |builders|
  {
    var b, g := builders[k], CountPart(builders[..k], builders[k].part);
    b.part < |parts| && g < |parts[b.part].groups| && BuiltFrom(b, g, parts[b.part].groups[g])
  }

  lemma {:induction false} BuildKeepsPlaces(parts: seq<Part>, issues: seq<Issue>, builders: seq<Builder>, k: nat)
    requires (forall b | b in builders :: b.part < |parts|) && (forall p | p in parts :: p.groups == []) && k < |builders|
    ensures BuiltAt(Build(parts, issues, builders).parts, builders, k)
    decreases |builders|
  {
    var front, b := builders[..|builders| - 1], builders[|builders| - 1];
    BuildCounts(parts, issues, front);
    OneBuilt(Build(parts, issues, front), b);
    assert front[..|builders| - 1] == front;
    if k < |builders| - 1 {
      BuildKeepsPlaces(parts, issues, front, k);
      assert front[..k] == builders[..k] && front[k] == builders[k];
    }
  }
}

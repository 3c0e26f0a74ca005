/** What a guest sees of an attempt: the first 30% of its mistakes, the same ones on every request. */
module GuestPreview {
  import opened Common
  import opened AssessmentRows
  import opened Sorting

  /** `feedback` stands for everything only a review shows: the right answer, explanations, evidence. */
  datatype ReviewAnswer = ReviewAnswer(
    question: Uuid, number: int, prompt: string, kind: string, answer: string, isCorrect: bool,
    feedback: string, locked: bool)

  datatype Improvement = Improvement(number: nat, title: string, text: string, locked: bool)
  datatype Preview = Preview(total: nat, available: nat, improvements: seq<Improvement>)

  datatype TaskFeedback = TaskFeedback(position: nat, improvements: seq<string>)

  /** `grades` are band, score and maximum score; `answers` the saved answers and recordings. */
  datatype Detail = Detail(
    status: Status, reviewLocked: bool, grades: Option<string>, review: seq<ReviewAnswer>,
    writing: Option<seq<TaskFeedback>>, speaking: Option<seq<seq<string>>>, answers: Option<string>, preview: Option<Preview>)

  // ---- The projection. ----

  predicate ReviewBefore(a: ReviewAnswer, b: ReviewAnswer)
  {
    if a.number != b.number then a.number < b.number else a.question < b.question
  }

  function PublicItem(a: ReviewAnswer): ReviewAnswer
  {
    ReviewAnswer(a.question, a.number, a.prompt, a.kind, a.answer, a.isCorrect, "", false)
  }

  function Wrong(review: seq<ReviewAnswer>): nat
  {
    if review == [] then 0 else Wrong(review[..|review| - 1]) + if review[|review| - 1].isCorrect then 0 else 1
  }

  /** The review with its first `available` mistakes shown, and how many could still be shown. */
  function Shown(review: seq<ReviewAnswer>, available: nat): (seq<ReviewAnswer>, nat)
  {
    if review == [] then ([], available)
    else
      var ((items, left), a) := (Shown(review[..|review| - 1], available), review[|review| - 1]);
      if a.isCorrect then (items + [PublicItem(a)], left)
      else if left > 0 then (items + [a], left - 1)
      else (items + [PublicItem(a).(locked := true)], left)
  }

  function Labelled(title: string, texts: seq<string>): seq<Improvement>
  {
    seq(|texts|, i requires 0 <= i < |texts| => Improvement(0, title, texts[i], false))
  }

  function Digits(n: nat): string
  {
    if n < 10 then ["0123456789"[n]] else Digits(n / 10) + ["0123456789"[n % 10]]
  }

  function FromWriting(tasks: seq<TaskFeedback>): seq<Improvement>
  {
    if tasks == [] then []
    else
      var last := tasks[|tasks| - 1];
      FromWriting(tasks[..|tasks| - 1]) + Labelled("Task " + Digits(last.position), last.improvements)
  }

  function FromSpeaking(parts: seq<seq<string>>): seq<Improvement>
  {
    if parts == [] then []
    else FromSpeaking(parts[..|parts| - 1]) + Labelled("Part " + Digits(|parts|), parts[|parts| - 1])
  }

  function AllImprovements(d: Detail): seq<Improvement>
  {
    (if d.writing.Some? then FromWriting(d.writing.value) else [])
    + if d.speaking.Some? then FromSpeaking(d.speaking.value) else []
  }

  function Offered(all: seq<Improvement>, left: nat): seq<Improvement>
  {
    seq(|all|, i requires 0 <= i < |all| => Improvement(i + 1, all[i].title, if i < left then all[i].text else "", i >= left))
  }

  function Available(total: nat): nat { total * 3 / 10 }

  /** The review and the preview made of an ordered review and all improvements. */
  function Teaser(review: seq<ReviewAnswer>, all: seq<Improvement>): (seq<ReviewAnswer>, Preview)
  {
    var total := Wrong(review) + |all|;
    var (items, left) := Shown(review, Available(total));
    (items, Preview(total, Available(total), Offered(all, left)))
  }

  /** A submitted attempt as a guest sees it. */
  function SubmittedView(d: Detail): Detail
  {
    var (items, preview) := Teaser(Sort(ReviewBefore, d.review), AllImprovements(d));
    d.(grades := None, review := items, writing := None, speaking := None, answers := None, preview := Some(preview))
  }

  function View(guest: bool, d: Detail): Detail
  {
    if d.reviewLocked && d.status != InProgress then
      Detail(d.status, d.reviewLocked, None, [], None, None, None, None)
    else if !guest then d
    else if d.status.Submitted? then SubmittedView(d)
    else d.(grades := None, writing := None, speaking := None)
  }

  // ---- The method. ----

  method AttemptForViewer(guest: bool, reviewLocked: bool, grades: Option<string>) returns (r: Option<string>)
    ensures r == if guest || reviewLocked then None else grades
  {
    r := grades;
    if guest || reviewLocked { r := None; }
  }

  method CountMistakes(review: seq<ReviewAnswer>) returns (n: nat)
    ensures n == Wrong(review)
  {
    n := 0;
    for i := 0 to |review|
      invariant n == Wrong(review[..i])
    {
      assert review[..i + 1][..i] == review[..i];
      if !review[i].isCorrect { n := n + 1; }
    }
    assert review[..|review|] == review;
  }

  method Collect(all0: seq<Improvement>, title: string, texts: seq<string>) returns (all: seq<Improvement>)
    ensures all == all0 + Labelled(title, texts)
  {
    all := all0;
    for k := 0 to |texts|
      invariant all == all0 + Labelled(title, texts)[..k]
    {
      all := all + [Improvement(0, title, texts[k], false)];
    }
    assert Labelled(title, texts)[..|texts|] == Labelled(title, texts);
  }

  method CollectTasks(tasks: seq<TaskFeedback>) returns (all: seq<Improvement>)
    ensures all == FromWriting(tasks)
  {
    all := [];
    for i := 0 to |tasks|
      invariant all == FromWriting(tasks[..i])
    {
      assert tasks[..i + 1][..i] == tasks[..i];
      all := Collect(all, "Task " + Digits(tasks[i].position), tasks[i].improvements);
    }
    assert tasks[..|tasks|] == tasks;
  }

  method CollectParts(parts: seq<seq<string>>) returns (all: seq<Improvement>)
    ensures all == FromSpeaking(parts)
  {
    all := [];
    for i := 0 to |parts|
      invariant all == FromSpeaking(parts[..i])
    {
      assert parts[..i + 1][..i] == parts[..i];
      all := Collect(all, "Part " + Digits(i + 1), parts[i]);
    }
    assert parts[..|parts|] == parts;
  }

  method GatherImprovements(d: Detail) returns (all: seq<Improvement>)
    ensures all == AllImprovements(d)
  {
    all := [];
    if d.writing.Some? { all := CollectTasks(d.writing.value); }
    if d.speaking.Some? {
      var more := CollectParts(d.speaking.value);
      all := all + more;
    }
  }

  /** Counts down what may still be shown. */
  method Unlock(review: seq<ReviewAnswer>, available0: nat) returns (items: seq<ReviewAnswer>, available: nat)
    ensures (items, available) == Shown(review, available0)
  {
    items, available := review, available0;
    for i := 0 to |review|
      invariant |items| == |review| && items[i..] == review[i..]
      invariant (items[..i], available) == Shown(review[..i], available0)
    {
      assert review[..i + 1][..i] == review[..i];
      var item := items[i];
      assert item == items[i..][0] == review[i];
      if item.isCorrect {
        item := PublicItem(item);
      } else if available > 0 {
        available := available - 1;
      } else {
        item := PublicItem(item).(locked := true);
      }
      ghost var before := items;
      items := items[i := item];
      assert items[..i + 1] == before[..i] + [item];
    }
    assert review[..|review|] == review && items[..|review|] == items;
  }

  method Offer(all: seq<Improvement>, available: nat) returns (improvements: seq<Improvement>)
    ensures improvements == Offered(all, available)
  {
    improvements := all;
    for i := 0 to |all|
      invariant |improvements| == |all|
      invariant forall k | 0 <= k < |all| :: improvements[k] == if k < i then Offered(all, available)[k] else all[k]
    {
      var item := improvements[i].(number := i + 1, locked := i >= available);
      if item.locked { item := item.(text := ""); }
      improvements := improvements[i := item];
    }
  }

  method DetailForViewer(guest: bool, d: Detail) returns (r: Detail)
    ensures r == View(guest, d)
  {
    if d.reviewLocked && d.status != InProgress {
      var grades := AttemptForViewer(guest, d.reviewLocked, d.grades);
      return Detail(d.status, d.reviewLocked, grades, [], None, None, None, None);
    }
    if !guest { return d; }
    var grades := AttemptForViewer(guest, d.reviewLocked, d.grades);
    r := d.(grades := grades);
    if d.status.Submitted? {
      var review := Sort(ReviewBefore, d.review);
      var mistakes := CountMistakes(review);
      var all := GatherImprovements(d);
      var total := mistakes + |all|;
      var items, left := Unlock(review, total * 3 / 10);
      var improvements := Offer(all, left);
      r := r.(review := items, answers := None, preview := Some(Preview(total, total * 3 / 10, improvements)));
    }
    r := r.(writing := None, speaking := None);
  }

  // ---- What it guarantees. ----

  function OpenMistakes(review: seq<ReviewAnswer>): nat
  {
    if review == [] then 0
    else
      OpenMistakes(review[..|review| - 1])
      + if !review[|review| - 1].isCorrect && !review[|review| - 1].locked then 1 else 0
  }

  function OpenImprovements(all: seq<Improvement>): nat
  {
    if all == [] then 0 else OpenImprovements(all[..|all| - 1]) + if all[|all| - 1].locked then 0 else 1
  }

  predicate NothingLocked(review: seq<ReviewAnswer>) { forall a | a in review :: !a.locked }

  function Min(a: nat, b: nat): nat { if a < b then a else b }

  lemma {:induction false} ShownCounts(review: seq<ReviewAnswer>, available: nat)
    requires NothingLocked(review)
    ensures var (items, left) := Shown(review, available);
            && |items| == |review| && Wrong(items) == Wrong(review)
            && OpenMistakes(items) == Min(Wrong(review), available) && left == available - OpenMistakes(items)
  {
    if review != [] {
      ShownCounts(review[..|review| - 1], available);
      var before := Shown(review[..|review| - 1], available).0;
      var items := Shown(review, available).0;
      assert items[..|items| - 1] == before;
    }
  }

  lemma {:induction false} OfferedCounts(all: seq<Improvement>, left: nat)
    ensures OpenImprovements(Offered(all, left)) == Min(|all|, left)
  {
    if all != [] {
      OfferedCounts(all[..|all| - 1], left);
      assert Offered(all, left)[..|all| - 1] == Offered(all[..|all| - 1], left);
    }
  }

  lemma SortedReview(review: seq<ReviewAnswer>)
    ensures Wrong(Sort(ReviewBefore, review)) == Wrong(review)
    ensures NothingLocked(review) ==> NothingLocked(Sort(ReviewBefore, review))
  {
    SortIsPermutation(ReviewBefore, review);
    SameMembers(review, Sort(ReviewBefore, review));
    WrongPermutes(review, Sort(ReviewBefore, review));
  }

  lemma OpenInAll(review: seq<ReviewAnswer>, all: seq<Improvement>)
    requires NothingLocked(review)
    ensures var (items, preview) := Teaser(review, all);
            && preview.total == Wrong(review) + |all| && preview.available == preview.total * 3 / 10
            && OpenMistakes(items) + OpenImprovements(preview.improvements) == preview.available
  {
    var available := Available(Wrong(review) + |all|);
    ShownCounts(review, available);
    OfferedCounts(all, Shown(review, available).1);
  }

  /** Exactly 30% of all mistakes and improvements are open, rounded down; the totals say so. */
  lemma ExactlyThirtyPercent(d: Detail)
    requires d.status.Submitted? && !d.reviewLocked && NothingLocked(d.review)
    ensures var v := View(true, d);
            && v.preview.Some? && v.preview.value.total == Wrong(d.review) + |AllImprovements(d)|
            && v.preview.value.available == v.preview.value.total * 3 / 10
            && OpenMistakes(v.review) + OpenImprovements(v.preview.value.improvements) == v.preview.value.available
  {
    var review, all := Sort(ReviewBefore, d.review), AllImprovements(d);
    SortedReview(d.review);
    OpenInAll(review, all);
    var t := Teaser(review, all);
    assert View(true, d).review == t.0 && View(true, d).preview == Some(t.1);
  }

  lemma {:induction false} WrongPermutes(a: seq<ReviewAnswer>, b: seq<ReviewAnswer>)
    requires multiset(a) == multiset(b)
    ensures Wrong(a) == Wrong(b)
  {
    assert |multiset(a)| == |a| && |multiset(b)| == |b|;
    if a != [] {
      SameMembers(a, b);
      var x := a[|a| - 1];
      assert x in b;
      var i :| 0 <= i < |b| && b[i] == x;
      WrongWithout(b, i);
      Shorten(a);
      assert b == b[..i] + [x] + b[i + 1..];
      assert multiset(b[..i] + b[i + 1..]) == multiset(b) - multiset{x};
      WrongPermutes(a[..|a| - 1], b[..i] + b[i + 1..]);
    }
  }

  lemma {:induction false} WrongWithout(b: seq<ReviewAnswer>, i: nat)
    requires i < |b|
    ensures Wrong(b) == Wrong(b[..i] + b[i + 1..]) + if b[i].isCorrect then 0 else 1
  {
    var rest := b[..i] + b[i + 1..];
    if i == |b| - 1 {
      assert rest == b[..i];
    } else {
      WrongWithout(b[..|b| - 1], i);
      assert rest[..|rest| - 1] == b[..|b| - 1][..i] + b[..|b| - 1][i + 1..];
    }
  }

  function QuestionOf(a: ReviewAnswer): Uuid { a.question }

  lemma ReviewOrderIsDecisive(review: seq<ReviewAnswer>)
    requires Distinct(QuestionOf, review)
    ensures StrictWeakOrder(ReviewBefore) && Decisive(ReviewBefore, review)
  {
    forall x, y | x in review && y in review && x != y ensures ReviewBefore(x, y) || ReviewBefore(y, x) {
      var i :| 0 <= i < |review| && review[i] == x;
      var j :| 0 <= j < |review| && review[j] == y;
      assert if i < j then QuestionOf(review[i]) != QuestionOf(review[j]) else QuestionOf(review[j]) != QuestionOf(review[i]);
    }
  }

  /** Reloading, or changing the order of the questions, never shows other mistakes. */
  lemma OrderDoesNotMatter(d: Detail, review: seq<ReviewAnswer>)
    requires Distinct(QuestionOf, d.review) && multiset(review) == multiset(d.review) && d.status.Submitted?
    ensures View(true, d.(review := review)) == View(true, d)
  {
    ReviewOrderIsDecisive(d.review);
    SortForgetsOrder(ReviewBefore, d.review, review);
    assert AllImprovements(d.(review := review)) == AllImprovements(d);
  }

  // ---- What is shown and what is hidden, column by column. ----

  /** The columns everybody may see of an answer: the student knows them already. */
  ghost predicate SamePublic(a: ReviewAnswer, b: ReviewAnswer)
  {
    && a.question == b.question && a.number == b.number && a.prompt == b.prompt
    && a.kind == b.kind && a.answer == b.answer && a.isCorrect == b.isCorrect
  }

  ghost predicate SameButFeedback(a: ReviewAnswer, b: ReviewAnswer) { SamePublic(a, b) && a.locked == b.locked }

  /** The mistakes among the first `n` answers. */
  function MistakesBefore(review: seq<ReviewAnswer>, n: nat): set<nat>
  {
    set k: nat | k < n && k < |review| && !review[k].isCorrect
  }

  lemma {:induction false} WrongCounts(review: seq<ReviewAnswer>)
    ensures Wrong(review) == |MistakesBefore(review, |review|)|
  {
    if review != [] {
      var n := |review| - 1;
      WrongCounts(review[..n]);
      MistakesOneMore(review, n);
    } else {
      assert MistakesBefore(review, 0) == {};
    }
  }

  lemma MistakesOneMore(review: seq<ReviewAnswer>, n: nat)
    requires n + 1 == |review|
    ensures |MistakesBefore(review, n + 1)| == |MistakesBefore(review[..n], n)| + if review[n].isCorrect then 0 else 1
  {
    var before := MistakesBefore(review[..n], n);
    assert forall k: nat | k < n :: review[..n][k] == review[k];
    if review[n].isCorrect {
      assert MistakesBefore(review, n + 1) == before;
    } else {
      assert MistakesBefore(review, n + 1) == before + {n};
    }
  }

  /** Of the answers in this order the first `available` mistakes are open with everything, and nothing else is. */
  ghost predicate OpenToGuests(review: seq<ReviewAnswer>, items: seq<ReviewAnswer>, available: nat)
  {
    && |items| == |review|
    && forall i | 0 <= i < |review| ::
         ShownAs(items[i], review[i], !review[i].isCorrect && |MistakesBefore(review, i)| < available)
  }

  /** Feedback comes with open mistakes only, and other mistakes are locked. */
  ghost predicate ShownAs(item: ReviewAnswer, a: ReviewAnswer, open: bool)
  {
    SamePublic(item, a) && item.feedback == (if open then a.feedback else "") && (item.locked <==> !a.isCorrect && !open)
  }

  lemma MistakesInPrefix(review: seq<ReviewAnswer>, n: nat, i: nat)
    requires i <= n <= |review|
    ensures MistakesBefore(review[..n], i) == MistakesBefore(review, i)
  {
    assert forall k: nat | k < n :: review[..n][k] == review[k];
  }

  lemma {:induction false} ShownIsOpen(review: seq<ReviewAnswer>, available: nat)
    requires NothingLocked(review)
    ensures OpenToGuests(review, Shown(review, available).0, available)
  {
    if review != [] {
      var n := |review| - 1;
      var front := review[..n];
      assert forall a | a in front :: a in review;
      assert review[n] in review;
      ShownIsOpen(front, available);
      ShownCounts(front, available);
      WrongCounts(front);
      OneMoreOpen(review, Shown(front, available).0, available, Shown(front, available).1);
    }
  }

  lemma OneMoreOpen(review: seq<ReviewAnswer>, items: seq<ReviewAnswer>, available: nat, left: nat)
    requires review != [] && !review[|review| - 1].locked
    requires var front := review[..|review| - 1];
             && OpenToGuests(front, items, available)
             && left == available - Min(|MistakesBefore(front, |front|)|, available)
    ensures var a := review[|review| - 1];
            var item := if a.isCorrect then PublicItem(a) else if left > 0 then a else PublicItem(a).(locked := true);
            OpenToGuests(review, items + [item], available)
  {
    var n, a := |review| - 1, review[|review| - 1];
    var front := review[..n];
    var all := items + [if a.isCorrect then PublicItem(a) else if left > 0 then a else PublicItem(a).(locked := true)];
    forall i | 0 <= i < |review|
      ensures ShownAs(all[i], review[i], !review[i].isCorrect && |MistakesBefore(review, i)| < available)
    {
      MistakesInPrefix(review, n, i);
      if i < n {
        assert front[i] == review[i];
        assert ShownAs(items[i], front[i], !front[i].isCorrect && |MistakesBefore(front, i)| < available);
      }
    }
  }

  /** By number, and by question where numbers agree. */
  ghost predicate ByNumber(review: seq<ReviewAnswer>)
  {
    forall i, j | 0 <= i < j < |review| ::
      review[i].number < review[j].number || (review[i].number == review[j].number && review[i].question <= review[j].question)
  }

  lemma SortedByNumber(review: seq<ReviewAnswer>)
    ensures ByNumber(Sort(ReviewBefore, review)) && multiset(Sort(ReviewBefore, review)) == multiset(review)
  {
    var sorted := Sort(ReviewBefore, review);
    SortIsPermutation(ReviewBefore, review);
    assert StrictWeakOrder(ReviewBefore);
    SortIsOrdered(ReviewBefore, review);
    forall i, j | 0 <= i < j < |sorted|
      ensures sorted[i].number < sorted[j].number
              || (sorted[i].number == sorted[j].number && sorted[i].question <= sorted[j].question)
    {
      assert !ReviewBefore(sorted[j], sorted[i]);
    }
  }

  lemma TeaserOpens(review: seq<ReviewAnswer>, all: seq<Improvement>)
    requires NothingLocked(review)
    ensures OpenToGuests(review, Teaser(review, all).0, (|MistakesBefore(review, |review|)| + |all|) * 3 / 10)
  {
    WrongCounts(review);
    ShownIsOpen(review, Available(Wrong(review) + |all|));
  }

  lemma TeaserOffers(review: seq<ReviewAnswer>, all: seq<Improvement>)
    requires NothingLocked(review)
    ensures Teaser(review, all).1.improvements == Offered(all, OpenTexts(Wrong(review), |all|))
  {
    ShownCounts(review, Available(Wrong(review) + |all|));
  }

  /** What is left of the available third after the mistakes. */
  function OpenTexts(mistakes: nat, improvements: nat): nat
  {
    var available := (mistakes + improvements) * 3 / 10;
    if mistakes < available then available - mistakes else 0
  }

  /**
   The review a guest gets of a submitted attempt: all its answers in the order of their numbers. The first mistakes, as
   many as are available, come with everything; every other mistake is locked; and what is locked or correct comes
   without feedback.
   */
  lemma GuestsSeeFirstMistakes(d: Detail) returns (review: seq<ReviewAnswer>)
    requires d.status.Submitted? && !d.reviewLocked && NothingLocked(d.review)
    ensures multiset(review) == multiset(d.review) && ByNumber(review)
    ensures OpenToGuests(review, View(true, d).review,
                         (|MistakesBefore(review, |review|)| + |AllImprovements(d)|) * 3 / 10)
  {
    review := Sort(ReviewBefore, d.review);
    SortedByNumber(d.review);
    SortedReview(d.review);
    TeaserOpens(review, AllImprovements(d));
    ViewIsTeaser(d);
  }

  lemma ViewIsTeaser(d: Detail)
    requires d.status.Submitted? && !d.reviewLocked
    ensures var t := Teaser(Sort(ReviewBefore, d.review), AllImprovements(d));
            View(true, d).review == t.0 && View(true, d).preview == Some(t.1)
  {}

  // ---- The improvements, one by one. ----

  /** How many improvements the writing tasks before `t` have. */
  function TextsBefore(texts: seq<seq<string>>, t: nat): nat
    requires t <= |texts|
  {
    if t == 0 then 0 else TextsBefore(texts, t - 1) + |texts[t - 1]|
  }

  function TextsOf(tasks: seq<TaskFeedback>): seq<seq<string>>
  {
    seq(|tasks|, i requires 0 <= i < |tasks| => tasks[i].improvements)
  }

  lemma {:induction false} TextsInPrefix(texts: seq<seq<string>>, n: nat, t: nat)
    requires t <= n <= |texts|
    ensures TextsBefore(texts[..n], t) == TextsBefore(texts, t)
  {
    if t > 0 { TextsInPrefix(texts, n, t - 1); }
  }

  lemma {:induction false} WritingAt(tasks: seq<TaskFeedback>, t: nat, k: nat)
    requires t < |tasks| && k < |tasks[t].improvements|
    ensures |FromWriting(tasks)| == TextsBefore(TextsOf(tasks), |tasks|)
    ensures var i := TextsBefore(TextsOf(tasks), t) + k;
            i < |FromWriting(tasks)| && FromWriting(tasks)[i] == Improvement(0, "Task " + Digits(tasks[t].position), tasks[t].improvements[k], false)
  {
    var n := |tasks| - 1;
    WritingLength(tasks[..n]);
    assert TextsOf(tasks)[..n] == TextsOf(tasks[..n]);
    TextsInPrefix(TextsOf(tasks), n, n);
    TextsInPrefix(TextsOf(tasks), n, t);
    if t < n { WritingAt(tasks[..n], t, k); }
  }

  lemma {:induction false} WritingLength(tasks: seq<TaskFeedback>)
    ensures |FromWriting(tasks)| == TextsBefore(TextsOf(tasks), |tasks|)
  {
    if tasks != [] {
      var n := |tasks| - 1;
      WritingLength(tasks[..n]);
      assert TextsOf(tasks)[..n] == TextsOf(tasks[..n]);
      TextsInPrefix(TextsOf(tasks), n, n);
    }
  }

  lemma {:induction false} SpeakingLength(parts: seq<seq<string>>)
    ensures |FromSpeaking(parts)| == TextsBefore(parts, |parts|)
  {
    if parts != [] {
      var n := |parts| - 1;
      SpeakingLength(parts[..n]);
      TextsInPrefix(parts, n, n);
    }
  }

  lemma {:induction false} SpeakingAt(parts: seq<seq<string>>, t: nat, k: nat)
    requires t < |parts| && k < |parts[t]|
    ensures |FromSpeaking(parts)| == TextsBefore(parts, |parts|)
    ensures var i := TextsBefore(parts, t) + k;
            i < |FromSpeaking(parts)| && FromSpeaking(parts)[i] == Improvement(0, "Part " + Digits(t + 1), parts[t][k], false)
  {
    var n := |parts| - 1;
    SpeakingLength(parts[..n]);
    TextsInPrefix(parts, n, n);
    TextsInPrefix(parts, n, t);
    if t < n { SpeakingAt(parts[..n], t, k); }
  }

  /** What an offered improvement looks like. */
  ghost predicate OfferedAs(v: Detail, i: nat, title: string, text: string, open: nat)
  {
    && v.preview.Some? && i < |v.preview.value.improvements|
    && v.preview.value.improvements[i] == Improvement(i + 1, title, if i < open then text else "", i >= open)
  }

  /** The mistakes of an attempt, and the texts that are open after them. */
  function OpenIn(d: Detail): nat { OpenTexts(|MistakesBefore(d.review, |d.review|)|, TextsIn(d)) }

  function TextsIn(d: Detail): nat
  {
    TaskTexts(d) + if d.speaking.Some? then TextsBefore(d.speaking.value, |d.speaking.value|) else 0
  }

  lemma AllAreCounted(d: Detail)
    ensures |AllImprovements(d)| == TextsIn(d)
  {
    if d.writing.Some? { WritingLength(d.writing.value); }
    if d.speaking.Some? { SpeakingLength(d.speaking.value); }
  }

  lemma LeftAfterMistakes(d: Detail)
    requires d.status.Submitted? && !d.reviewLocked && NothingLocked(d.review)
    ensures View(true, d).preview.Some?
    ensures View(true, d).preview.value.improvements
         == Offered(AllImprovements(d), OpenTexts(|MistakesBefore(d.review, |d.review|)|, |AllImprovements(d)|))
  {
    ViewIsTeaser(d);
    SortedReview(d.review);
    WrongCounts(d.review);
    TeaserOffers(Sort(ReviewBefore, d.review), AllImprovements(d));
  }

  lemma OfferedAt(d: Detail, i: nat, title: string, text: string)
    requires d.status.Submitted? && !d.reviewLocked && NothingLocked(d.review)
    requires i < |AllImprovements(d)| && AllImprovements(d)[i] == Improvement(0, title, text, false)
    ensures OfferedAs(View(true, d), i, title, text, OpenIn(d))
  {
    LeftAfterMistakes(d);
    AllAreCounted(d);
  }

  /**
   Improvement `k` of a writing task is offered at its place under that number: with its text while something of the
   available third is left after the mistakes, and locked without text from there on.
   */
  lemma TaskIsOffered(d: Detail, t: nat, k: nat)
    requires d.status.Submitted? && !d.reviewLocked && NothingLocked(d.review)
    requires d.writing.Some? && t < |d.writing.value| && k < |d.writing.value[t].improvements|
    ensures OfferedAs(View(true, d), TextsBefore(TextsOf(d.writing.value), t) + k, "Task " + Digits(d.writing.value[t].position),
                      d.writing.value[t].improvements[k], OpenIn(d))
  {
    WritingAt(d.writing.value, t, k);
    OfferedAt(d, TextsBefore(TextsOf(d.writing.value), t) + k, "Task " + Digits(d.writing.value[t].position),
              d.writing.value[t].improvements[k]);
  }

  /** Parts come after all writing tasks. */
  function TaskTexts(d: Detail): nat
  {
    if d.writing.Some? then TextsBefore(TextsOf(d.writing.value), |d.writing.value|) else 0
  }

  lemma PartAt(d: Detail, t: nat, k: nat)
    requires d.speaking.Some? && t < |d.speaking.value| && k < |d.speaking.value[t]|
    ensures var i := TaskTexts(d) + TextsBefore(d.speaking.value, t) + k;
            && i < |AllImprovements(d)|
            && AllImprovements(d)[i] == Improvement(0, "Part " + Digits(t + 1), d.speaking.value[t][k], false)
  {
    if d.writing.Some? { WritingLength(d.writing.value); }
    SpeakingAt(d.speaking.value, t, k);
  }

  /** The same of a part; parts are numbered by their place. */
  lemma PartIsOffered(d: Detail, t: nat, k: nat)
    requires d.status.Submitted? && !d.reviewLocked && NothingLocked(d.review)
    requires d.speaking.Some? && t < |d.speaking.value| && k < |d.speaking.value[t]|
    ensures OfferedAs(View(true, d), TaskTexts(d) + TextsBefore(d.speaking.value, t) + k, "Part " + Digits(t + 1),
                      d.speaking.value[t][k], OpenIn(d))
  {
    PartAt(d, t, k);
    OfferedAt(d, TaskTexts(d) + TextsBefore(d.speaking.value, t) + k, "Part " + Digits(t + 1), d.speaking.value[t][k]);
  }

  /** Everybody else, and every other status: nothing of a locked review, everything to its owner, no grades to a guest. */
  lemma OtherViews(guest: bool, d: Detail)
    ensures var v := View(guest, d);
            && v.status == d.status
            && (d.reviewLocked && !d.status.InProgress? ==>
                  v.grades.None? && v.review == [] && v.writing.None? && v.speaking.None? && v.answers.None? && v.preview.None?)
            && (guest ==> v.grades.None? && v.writing.None? && v.speaking.None?)
            && (guest && d.status.Submitted? ==> v.answers.None?)
            && (!d.reviewLocked || d.status.InProgress? ==>
                  && (!guest ==> v == d)
                  && (guest && !d.status.Submitted? ==> v.review == d.review && v.answers == d.answers && v.preview == d.preview))
  {}

  // ---- Nothing else leaks. ----

  /** The two reviews are the same in every column but the feedback, and altogether in their first `shown` mistakes. */
  ghost predicate AlikeBut(a: seq<ReviewAnswer>, b: seq<ReviewAnswer>, shown: nat)
  {
    && |a| == |b|
    && forall i | 0 <= i < |a| ::
         SameButFeedback(a[i], b[i]) && (!a[i].isCorrect && Wrong(a[..i]) < shown ==> a[i] == b[i])
  }

  lemma {:induction false} ShownAlike(a: seq<ReviewAnswer>, b: seq<ReviewAnswer>, available: nat)
    requires AlikeBut(a, b, available)
    ensures Shown(a, available) == Shown(b, available) && Wrong(a) == Wrong(b)
    ensures Shown(a, available).1 == if Wrong(a) < available then available - Wrong(a) else 0
  {
    if a != [] {
      var n := |a| - 1;
      forall i | 0 <= i < n
        ensures SameButFeedback(a[..n][i], b[..n][i]) && (!a[i].isCorrect && Wrong(a[..n][..i]) < available ==> a[..n][i] == b[..n][i])
      {
        assert a[..n][..i] == a[..i];
      }
      ShownAlike(a[..n], b[..n], available);
      assert SameButFeedback(a[n], b[n]);
    }
  }

  ghost predicate OfferedAlike(a: seq<Improvement>, b: seq<Improvement>, left: nat)
  {
    && |a| == |b|
    && forall i | 0 <= i < |a| :: a[i].title == b[i].title && (i < left ==> a[i].text == b[i].text)
  }

  lemma TeaserAlike(a: seq<ReviewAnswer>, b: seq<ReviewAnswer>, all: seq<Improvement>, other: seq<Improvement>)
    requires AlikeBut(a, b, Available(Wrong(a) + |all|))
    requires OfferedAlike(all, other, Shown(a, Available(Wrong(a) + |all|)).1)
    ensures Teaser(a, all) == Teaser(b, other)
  {
    var available := Available(Wrong(a) + |all|);
    ShownAlike(a, b, available);
    assert Offered(all, Shown(a, available).1) == Offered(other, Shown(a, available).1);
  }

  lemma SubmittedColumns(d: Detail)
    requires d.status.Submitted? && !d.reviewLocked
    ensures var t := Teaser(Sort(ReviewBefore, d.review), AllImprovements(d));
            View(true, d) == Detail(Submitted, false, None, t.0, None, None, None, Some(t.1))
  {
  }

  /** To a guest the two attempts look alike: they differ in locked feedback, grades and saved answers only. */
  ghost predicate GuestAlike(c: Detail, d: Detail)
  {
    var review, all := Sort(ReviewBefore, c.review), AllImprovements(c);
    var available := Available(Wrong(review) + |all|);
    && c.status.Submitted? && d.status.Submitted? && !c.reviewLocked && !d.reviewLocked
    && AlikeBut(review, Sort(ReviewBefore, d.review), available)
    && OfferedAlike(all, AllImprovements(d), Shown(review, available).1)
  }

  /**
   Grades, saved answers, the feedback of correct answers and of mistakes beyond the first 30%, and the texts of locked
   improvements have no influence on what a guest receives.
   */
  lemma LockedFeedbackDoesNotLeak(c: Detail, d: Detail)
    requires GuestAlike(c, d)
    ensures View(true, c) == View(true, d)
  {
    TeaserAlike(Sort(ReviewBefore, c.review), Sort(ReviewBefore, d.review), AllImprovements(c), AllImprovements(d));
    SubmittedColumns(c);
    SubmittedColumns(d);
  }
}

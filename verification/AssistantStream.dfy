/**
 One assistant answer: candidates are tried one after the other, each streams tool rounds through the gate,
 and the first that succeeds in time is committed. Chunks are already decoded. A text is a sequence of bytes.
 */
module AssistantStream {
  import opened Common
  import opened StreamGate

  datatype CallDelta = CallDelta(index: int, id: string, name: string, arguments: string)

  /** A decoded chunk: the end mark, an unusable chunk, a usage-only chunk, or the first choice of a chunk. */
  datatype Chunk =
    | EndMark
    | Unusable
    | UsageOnly
    | Choice(content: Option<string>, calls: seq<CallDelta>, finish: Option<string>, client: Client)

  datatype ToolCall = ToolCall(id: string, name: string, arguments: string)
  datatype Message = Message(content: string, calls: seq<ToolCall>)
  datatype Response = Response(text: string, calls: seq<ToolCall>)

  datatype Result<T> = Ok(value: T) | Error

  const ROUNDS := 3
  const TOOL := "read_page_content"
  const MAX_ARGUMENTS := 16_384
  const MAX_NAME := 256

  // ---- What a stream of chunks says. ----

  /** The text of all choices before the end mark. */
  function TextOf(chunks: seq<Chunk>): string
  {
    if chunks == [] then ""
    else
      var last := chunks[|chunks| - 1];
      TextOf(chunks[..|chunks| - 1]) + (if last.Choice? && last.content.Some? then last.content.value else "")
  }

  function Merge(calls: map<int, ToolCall>, d: CallDelta): map<int, ToolCall>
  {
    var call := if d.index in calls then calls[d.index] else ToolCall("", "", "");
    calls[d.index := ToolCall(if d.id != "" then d.id else call.id, call.name + d.name, call.arguments + d.arguments)]
  }

  function MergeAll(calls: map<int, ToolCall>, deltas: seq<CallDelta>): map<int, ToolCall>
  {
    if deltas == [] then calls else Merge(MergeAll(calls, deltas[..|deltas| - 1]), deltas[|deltas| - 1])
  }

  /** Tool-call fragments of all choices, joined per index. */
  function CallsOf(chunks: seq<Chunk>): map<int, ToolCall>
  {
    if chunks == [] then map[]
    else
      var last := chunks[|chunks| - 1];
      if last.Choice? then MergeAll(CallsOf(chunks[..|chunks| - 1]), last.calls) else CallsOf(chunks[..|chunks| - 1])
  }

  /** The calls in index order. */
  function InOrder(calls: map<int, ToolCall>, count: nat): seq<ToolCall>
  {
    if count == 0 then []
    else InOrder(calls, count - 1) + (if count - 1 in calls then [calls[count - 1]] else [])
  }

  /** Smaller indices come first, and none is left out. */
  lemma {:induction false} InOrderLists(calls: map<int, ToolCall>, count: nat) returns (ks: seq<int>)
    ensures forall k :: k in ks <==> k in calls && 0 <= k < count
    ensures forall i, j | 0 <= i < j < |ks| :: ks[i] < ks[j]
    ensures |InOrder(calls, count)| == |ks|
    ensures forall i | 0 <= i < |ks| :: ks[i] in calls && InOrder(calls, count)[i] == calls[ks[i]]
  {
    ks := [];
    if count > 0 {
      ks := InOrderLists(calls, count - 1);
      assert forall i | 0 <= i < |ks| :: ks[i] in ks;
      if count - 1 in calls { ks := ks + [count - 1]; }
    }
  }

  predicate Acceptable(c: Chunk)
  {
    c.UsageOnly? || (c.Choice? && (c.finish.None? || c.finish.value == "stop" || c.finish.value == "tool_calls"))
  }

  /** Indices and lengths of tool calls are limited. */
  predicate CallsFit(calls: map<int, ToolCall>)
  {
    forall k | k in calls :: 0 <= k <= 7 && |calls[k].name| <= MAX_NAME && |calls[k].arguments| <= MAX_ARGUMENTS
  }

  /** Somebody said why the text ended, and the end mark arrived after `k` usable chunks that keep within the limits. */
  ghost predicate EndsAt(chunks: seq<Chunk>, k: nat)
  {
    && k < |chunks| && chunks[k].EndMark?
    && (forall i | 0 <= i < k :: Acceptable(chunks[i]))
    && (exists i :: 0 <= i < k && Finishes(chunks[i]))
    && |TextOf(chunks[..k])| <= LIMIT && CallsFit(CallsOf(chunks[..k]))
  }

  predicate Finishes(c: Chunk) { c.Choice? && c.finish.Some? }

  /** What a stream of chunks completes with, if it does. */
  ghost function MessageOf(chunks: seq<Chunk>): Option<Message>
  {
    if k: nat :| EndsAt(chunks, k) then Some(Message(TextOf(chunks[..k]), InOrder(CallsOf(chunks[..k]), 8))) else None
  }

  lemma EndsOnce(chunks: seq<Chunk>, j: nat, k: nat)
    requires EndsAt(chunks, j) && EndsAt(chunks, k)
    ensures j == k
  {
    NoEarlierEnd(chunks, j);
    NoEarlierEnd(chunks, k);
  }

  lemma NoEarlierEnd(chunks: seq<Chunk>, k: nat)
    ensures EndsAt(chunks, k) ==> forall j: nat | EndsAt(chunks, j) :: k <= j
  {
    assert EndsAt(chunks, k) ==> forall i | 0 <= i < k :: Acceptable(chunks[i]);
  }

  lemma MessageAt(chunks: seq<Chunk>, k: nat)
    requires EndsAt(chunks, k)
    ensures MessageOf(chunks) == Some(Message(TextOf(chunks[..k]), InOrder(CallsOf(chunks[..k]), 8)))
  {
    var j: nat :| EndsAt(chunks, j) && MessageOf(chunks) == Some(Message(TextOf(chunks[..j]), InOrder(CallsOf(chunks[..j]), 8)));
    EndsOnce(chunks, j, k);
  }

  // ---- Limits are kept all along if they are kept at the end. ----

  /** Every call of `a` is in `b` too, with names and arguments that have only grown. */
  ghost predicate CallsGrow(a: map<int, ToolCall>, b: map<int, ToolCall>)
  {
    forall k | k in a :: k in b && |a[k].name| <= |b[k].name| && |a[k].arguments| <= |b[k].arguments|
  }

  lemma {:induction false} MergeGrows(calls: map<int, ToolCall>, deltas: seq<CallDelta>)
    ensures CallsGrow(calls, MergeAll(calls, deltas))
  {
    if deltas != [] { MergeGrows(calls, deltas[..|deltas| - 1]); }
  }

  lemma {:induction false} MergeConcat(calls: map<int, ToolCall>, a: seq<CallDelta>, b: seq<CallDelta>)
    ensures MergeAll(calls, a + b) == MergeAll(MergeAll(calls, a), b)
  {
    if b == [] {
      assert a + b == a;
    } else {
      MergeConcat(calls, a, b[..|b| - 1]);
      assert (a + b)[..|a + b| - 1] == a + b[..|b| - 1];
    }
  }

  lemma GrowingFits(a: map<int, ToolCall>, b: map<int, ToolCall>)
    requires CallsGrow(a, b) && CallsFit(b)
    ensures CallsFit(a)
  {
    forall k | k in a ensures 0 <= k <= 7 && |a[k].name| <= MAX_NAME && |a[k].arguments| <= MAX_ARGUMENTS {
      assert k in b;
    }
  }

  lemma {:induction false} PrefixGrows(chunks: seq<Chunk>, i: nat)
    requires i <= |chunks|
    ensures |TextOf(chunks[..i])| <= |TextOf(chunks)| && CallsGrow(CallsOf(chunks[..i]), CallsOf(chunks))
    decreases |chunks|
  {
    if i == |chunks| {
      assert chunks[..i] == chunks;
    } else {
      var front, last := chunks[..|chunks| - 1], chunks[|chunks| - 1];
      PrefixGrows(front, i);
      assert front[..i] == chunks[..i];
      if last.Choice? { MergeGrows(CallsOf(front), last.calls); }
    }
  }

  /** Before the end a stream keeps within the limits too. */
  lemma PrefixFits(chunks: seq<Chunk>, k: nat, i: nat)
    requires EndsAt(chunks, k) && i <= k
    ensures |TextOf(chunks[..i])| <= LIMIT && CallsFit(CallsOf(chunks[..i]))
  {
    PrefixGrows(chunks[..k], i);
    assert chunks[..k][..i] == chunks[..i];
    GrowingFits(CallsOf(chunks[..i]), CallsOf(chunks[..k]));
  }

  // ---- What the pieces of a call are joined to. ----

  /** The pieces of one call, joined in the order in which they came. */
  function Joined(deltas: seq<CallDelta>, index: int, piece: CallDelta -> string): string
  {
    if deltas == [] then ""
    else Joined(deltas[..|deltas| - 1], index, piece) + if deltas[|deltas| - 1].index == index then piece(deltas[|deltas| - 1]) else ""
  }

  /** No piece of the call names it after the one that calls it `id`, if one does. */
  ghost predicate LastNamed(deltas: seq<CallDelta>, index: int, id: string)
  {
    exists i :: -1 <= i < |deltas| && (if i == -1 then id == "" else deltas[i].index == index && deltas[i].id == id)
                && NotNamedAfter(deltas, index, i)
  }

  predicate NotNamedAfter(deltas: seq<CallDelta>, index: int, i: int)
    requires -1 <= i
  {
    forall j | i < j < |deltas| && deltas[j].index == index :: deltas[j].id == ""
  }

  /** A call has the joined names and arguments of its pieces, and the id that was named last. */
  lemma {:induction false} CallsAreJoined(deltas: seq<CallDelta>, index: int)
    ensures var calls := MergeAll(map[], deltas);
            && (index in calls <==> exists d :: d in deltas && d.index == index)
            && (index in calls ==>
                  && calls[index].name == Joined(deltas, index, (d: CallDelta) => d.name)
                  && calls[index].arguments == Joined(deltas, index, (d: CallDelta) => d.arguments)
                  && LastNamed(deltas, index, calls[index].id))
  {
    if deltas != [] {
      var front, last := deltas[..|deltas| - 1], deltas[|deltas| - 1];
      CallsAreJoined(front, index);
      assert deltas == front + [last];
      if index !in MergeAll(map[], front) {
        NothingJoined(front, index, (d: CallDelta) => d.name);
        NothingJoined(front, index, (d: CallDelta) => d.arguments);
      }
    }
  }

  lemma {:induction false} NothingJoined(deltas: seq<CallDelta>, index: int, piece: CallDelta -> string)
    requires forall d | d in deltas :: d.index != index
    ensures Joined(deltas, index, piece) == ""
  {
    if deltas != [] {
      assert deltas[|deltas| - 1] in deltas;
      NothingJoined(deltas[..|deltas| - 1], index, piece);
    }
  }

  // ---- The client's side. ----

  predicate Accepting(c: Client) { !c.cancelled && c.first && c.second }

  /** The client takes the text of a chunk, if it has some. */
  predicate Takes(c: Chunk) { c.Choice? && c.content.Some? ==> Accepting(c.client) }

  ghost predicate Open(g: Gate) { !g.frozen && !g.broken }

  /** An open gate forwards what a client accepts, and only a refusal breaks it. */
  lemma EmitAccepted(g: Gate, id: Uuid, e: StreamEvent, client: Client)
    ensures EmitStep(g, id, e, client).0.broken ==> g.broken || !Accepting(client)
    ensures Open(g) && Accepting(client) && (e.Delta? ==> |BufferOf(g.buffers, id)| + |e.text| <= LIMIT) ==>
              EmitStep(g, id, e, client).1 && Open(EmitStep(g, id, e, client).0)
  {}

  // ---- The methods. ----

  /** Nothing but the candidate's own buffer and the client's view may change while it streams. */
  ghost predicate OnlyCandidate(g: Gate, g': Gate, id: Uuid)
  {
    && (Faithful(g) ==> Faithful(g')) && g'.frozen == g.frozen && (g.broken ==> g'.broken)
    && g'.buffers - {id} == g.buffers - {id}
  }

  lemma OthersKeepTheirBuffers(g: Gate, g': Gate, id: Uuid, other: Uuid)
    requires OnlyCandidate(g, g', id) && other != id
    ensures BufferOf(g'.buffers, other) == BufferOf(g.buffers, other)
  {
    assert other in g'.buffers <==> other in g'.buffers - {id};
    assert other in g.buffers <==> other in g.buffers - {id};
  }

  lemma EmitConcernsCandidate(g: Gate, id: Uuid, e: StreamEvent, client: Client)
    ensures OnlyCandidate(g, EmitStep(g, id, e, client).0, id)
    ensures EmitStep(g, id, e, client).1 && e.Delta? ==>
              BufferOf(EmitStep(g, id, e, client).0.buffers, id) == BufferOf(g.buffers, id) + e.text
    ensures EmitStep(g, id, e, client).1 && e.Reset? ==> BufferOf(EmitStep(g, id, e, client).0.buffers, id) == ""
  {
    if Faithful(g) { EmitFaithful(g, id, e, client); }
  }

  /** Fragments are merged as long as the result stays within the limits. */
  method MergeCalls(calls: map<int, ToolCall>, deltas: seq<CallDelta>) returns (r: Result<map<int, ToolCall>>)
    requires CallsFit(calls)
    ensures r.Ok? <==> CallsFit(MergeAll(calls, deltas))
    ensures r.Ok? ==> r.value == MergeAll(calls, deltas)
  {
    var merged := calls;
    for i := 0 to |deltas|
      invariant merged == MergeAll(calls, deltas[..i]) && CallsFit(merged)
    {
      var d := deltas[i];
      assert deltas[..i + 1][..i] == deltas[..i];
      MergedLater(calls, deltas, i + 1);
      assert MergeAll(calls, deltas[..i + 1]) == Merge(merged, d);
      assert d.index in Merge(merged, d);
      if d.index < 0 || d.index > 7 { return Error; }
      merged := Merge(merged, d);
      if |merged[d.index].arguments| > MAX_ARGUMENTS || |merged[d.index].name| > MAX_NAME { return Error; }
    }
    assert deltas[..|deltas|] == deltas;
    return Ok(merged);
  }

  lemma MergedLater(calls: map<int, ToolCall>, deltas: seq<CallDelta>, i: nat)
    requires i <= |deltas|
    ensures CallsFit(MergeAll(calls, deltas)) ==> CallsFit(MergeAll(calls, deltas[..i]))
  {
    assert deltas == deltas[..i] + deltas[i..];
    MergeConcat(calls, deltas[..i], deltas[i..]);
    MergeGrows(MergeAll(calls, deltas[..i]), deltas[i..]);
    if CallsFit(MergeAll(calls, deltas)) { GrowingFits(MergeAll(calls, deltas[..i]), MergeAll(calls, deltas)); }
  }

  function MergedWith(calls: map<int, ToolCall>, c: Chunk): map<int, ToolCall>
  {
    if c.Choice? then MergeAll(calls, c.calls) else calls
  }

  lemma Associative(a: string, b: string, c: string)
    ensures a + b + c == a + (b + c) && a + "" == a
  {
  }

  /** The text one chunk adds. */
  function Added(c: Chunk): string { if c.Choice? && c.content.Some? then c.content.value else "" }

  /** One chunk keeps within the limits after what has been gathered. */
  predicate Fits(c: Chunk, text: string, calls: map<int, ToolCall>)
  {
    Acceptable(c) && |text| + |Added(c)| <= LIMIT && CallsFit(MergedWith(calls, c))
  }

  /** One chunk: its text is kept and forwarded, its call fragments are merged, its reason to finish is checked. */
  method Consume(id: Uuid, c: Chunk, text: string, calls: map<int, ToolCall>, gate: StreamGate)
    returns (r: Result<map<int, ToolCall>>)
    requires CallsFit(calls) && |text| <= LIMIT
    modifies gate
    ensures OnlyCandidate(old(gate.State()), gate.State(), id)
    ensures r.Ok? ==> Fits(c, text, calls) && r.value == MergedWith(calls, c)
    ensures r.Ok? ==> BufferOf(gate.buffers, id) == BufferOf(old(gate.buffers), id) + Added(c)
    ensures Fits(c, text, calls) && Takes(c) && old(Open(gate.State())) && BufferOf(old(gate.buffers), id) == text ==>
              r.Ok? && Open(gate.State())
    ensures gate.broken ==> old(gate.broken) || !Takes(c)
  {
    if c.UsageOnly? { return Ok(calls); }
    if !c.Choice? { return Error; }
    if c.content.Some? {
      if |text| + |c.content.value| > LIMIT { return Error; }
      EmitConcernsCandidate(gate.State(), id, Delta(c.content.value), c.client);
      EmitAccepted(gate.State(), id, Delta(c.content.value), c.client);
      var ok := gate.Emit(id, Delta(c.content.value), c.client);
      if !ok { return Error; }
    }
    r := MergeCalls(calls, c.calls);
    if c.finish.Some? && c.finish.value != "stop" && c.finish.value != "tool_calls" { return Error; }
  }

  /** What has been gathered after `i` chunks. */
  ghost predicate Gathered(chunks: seq<Chunk>, i: nat, text: string, calls: map<int, ToolCall>, finished: bool)
  {
    && i <= |chunks| && text == TextOf(chunks[..i]) && calls == CallsOf(chunks[..i])
    && (forall j | 0 <= j < i :: Acceptable(chunks[j]))
    && (finished <==> exists j :: 0 <= j < i && Finishes(chunks[j]))
    && |text| <= LIMIT && CallsFit(calls)
  }

  lemma OneMore(chunks: seq<Chunk>, i: nat, text: string, calls: map<int, ToolCall>, finished: bool)
    requires Gathered(chunks, i, text, calls, finished) && i < |chunks| && Fits(chunks[i], text, calls)
    ensures var c := chunks[i];
            Gathered(chunks, i + 1, text + Added(c), MergedWith(calls, c), finished || Finishes(c))
  {
    assert chunks[..i + 1][..i] == chunks[..i];
    assert text + "" == text;
  }

  /** The client takes every text up to the end of the stream. */
  ghost predicate Heard(chunks: seq<Chunk>)
  {
    forall k: nat | EndsAt(chunks, k) :: forall i | 0 <= i < k :: Takes(chunks[i])
  }

  /** Nobody refuses any text of the stream. */
  predicate NoneRefused(chunks: seq<Chunk>) { forall i | 0 <= i < |chunks| :: Takes(chunks[i]) }

  lemma EndReached(chunks: seq<Chunk>, i: nat, text: string, calls: map<int, ToolCall>)
    requires Gathered(chunks, i, text, calls, true) && i < |chunks| && chunks[i].EndMark?
    ensures EndsAt(chunks, i) && MessageOf(chunks) == Some(Message(text, InOrder(calls, 8)))
  {
    assert EndsAt(chunks, i);
    MessageAt(chunks, i);
  }

  /** The next chunk of a stream that ends later keeps within the limits. */
  lemma NextFits(chunks: seq<Chunk>, i: nat, text: string, calls: map<int, ToolCall>, finished: bool, k: nat)
    requires Gathered(chunks, i, text, calls, finished) && EndsAt(chunks, k) && i < k
    ensures Fits(chunks[i], text, calls) && (Heard(chunks) ==> Takes(chunks[i]))
  {
    PrefixFits(chunks, k, i + 1);
    assert chunks[..i + 1][..i] == chunks[..i];
  }

  lemma EndDue(chunks: seq<Chunk>, open: bool) returns (end: Option<nat>)
    ensures end.Some? <==> MessageOf(chunks).Some? && Heard(chunks) && open
    ensures end.Some? ==> EndsAt(chunks, end.value)
  {
    end := None;
    if k: nat :| EndsAt(chunks, k) && Heard(chunks) && open { end := Some(k); }
  }

  /** Where the loop stops a stream that ends has ended. */
  lemma StopsAtEnd(chunks: seq<Chunk>, i: nat, text: string, calls: map<int, ToolCall>, finished: bool, k: nat)
    requires Gathered(chunks, i, text, calls, finished) && EndsAt(chunks, k) && i <= k && (i < |chunks| ==> chunks[i].EndMark?)
    ensures i == k && finished
  {
    assert i < k ==> Acceptable(chunks[i]);
  }

  /**
   Streams one completion. Text that arrives is forwarded at once; end of input without an end mark is a failure. A
   stream that completes, and that the client hears through an open gate, succeeds.
   */
  method StreamCompletion(id: Uuid, chunks: seq<Chunk>, gate: StreamGate) returns (r: Result<Message>)
    modifies gate
    ensures OnlyCandidate(old(gate.State()), gate.State(), id)
    ensures r.Ok? ==> MessageOf(chunks) == Some(r.value)
    ensures r.Ok? ==> BufferOf(gate.buffers, id) == BufferOf(old(gate.buffers), id) + r.value.content
    ensures MessageOf(chunks).Some? && Heard(chunks) && old(Open(gate.State())) && BufferOf(old(gate.buffers), id) == "" ==>
              r.Ok? && Open(gate.State())
    ensures gate.broken ==> old(gate.broken) || !NoneRefused(chunks)
  {
    var text, calls, finished, i := "", map[], false, 0;
    ghost var before := BufferOf(gate.buffers, id);
    ghost var end := EndDue(chunks, Open(gate.State()) && before == "");
    Associative(before, "", "");
    while i < |chunks| && !chunks[i].EndMark?
      invariant 0 <= i <= |chunks| && Gathered(chunks, i, text, calls, finished)
      invariant OnlyCandidate(old(gate.State()), gate.State(), id)
      invariant BufferOf(gate.buffers, id) == before + text
      invariant end.Some? ==> i <= end.value && Open(gate.State())
      invariant gate.broken ==> old(gate.broken) || !NoneRefused(chunks)
    {
      if end.Some? { NextFits(chunks, i, text, calls, finished, end.value); }
      var merged := Consume(id, chunks[i], text, calls, gate);
      if merged.Error? { return Error; }
      OneMore(chunks, i, text, calls, finished);
      Associative(before, text, Added(chunks[i]));
      text, calls, finished, i := text + Added(chunks[i]), merged.value, finished || Finishes(chunks[i]), i + 1;
    }
    if end.Some? { StopsAtEnd(chunks, i, text, calls, finished, end.value); }
    if i == |chunks| || !finished { return Error; }
    EndReached(chunks, i, text, calls);
    return Ok(Message(text, InOrder(calls, 8)));
  }

  datatype Round = Round(chunks: seq<Chunk>, client: Client)

  /** Every call is one of the only tool there is. */
  predicate AllTools(calls: seq<ToolCall>) { forall c | c in calls :: c.id != "" && c.name == TOOL }

  /** The message ends the answer, or asks for the tool and nothing else. */
  predicate Proper(m: Message) { if m.calls == [] then Trim(m.content) != "" else AllTools(m.calls) }

  /** What the rounds complete with. */
  ghost function Said(rounds: seq<Round>): (said: seq<Option<Message>>)
    ensures |said| == |rounds|
  {
    if rounds == [] then [] else Said(rounds[..|rounds| - 1]) + [MessageOf(rounds[|rounds| - 1].chunks)]
  }

  lemma {:induction false} SaidAt(rounds: seq<Round>, i: nat)
    requires i < |rounds|
    ensures Said(rounds)[i] == MessageOf(rounds[i].chunks)
  {
    if i < |rounds| - 1 { SaidAt(rounds[..|rounds| - 1], i); }
  }

  /** What the first `n` messages asked the tool for, if each of them is there and did ask for it. */
  function Asked(said: seq<Option<Message>>, n: nat): Option<seq<ToolCall>>
    requires n <= |said|
  {
    if n == 0 then Some([])
    else
      var before, m := Asked(said, n - 1), said[n - 1];
      if before.Some? && m.Some? && m.value.calls != [] && AllTools(m.value.calls) then
        Some(before.value + m.value.calls)
      else None
  }

  /** After `n` messages that asked for the tool comes one that does not, and its text is not blank. */
  predicate FinalAt(said: seq<Option<Message>>, n: nat, text: string, calls: seq<ToolCall>)
  {
    n < ROUNDS && n < |said| && Asked(said, n) == Some(calls) && said[n] == Some(Message(text, [])) && Trim(text) != ""
  }

  /** The client takes everything up to the end of the round `n`. */
  ghost predicate HeardThrough(rounds: seq<Round>, n: nat)
    requires n < |rounds|
  {
    && (forall j | 0 <= j <= n :: Heard(rounds[j].chunks))
    && (forall j | 0 <= j < n :: Accepting(rounds[j].client))
  }

  lemma {:induction false} AskedBefore(said: seq<Option<Message>>, m: nat, n: nat)
    requires m <= n <= |said| && Asked(said, n).Some?
    ensures Asked(said, m).Some?
  {
    if m < n { AskedBefore(said, m, n - 1); }
  }

  /** The rounds lead to an answer with this text after these calls. */
  ghost predicate Answers(rounds: seq<Round>, text: string, calls: seq<ToolCall>)
  {
    exists n: nat :: FinalAt(Said(rounds), n, text, calls)
  }

  ghost predicate AskedSoFar(rounds: seq<Round>, n: nat, calls: seq<ToolCall>)
  {
    n <= |rounds| && Asked(Said(rounds), n) == Some(calls)
  }

  lemma AnswersNow(rounds: seq<Round>, n: nat, calls: seq<ToolCall>, m: Message)
    requires n < |rounds| && n < ROUNDS && AskedSoFar(rounds, n, calls)
    requires MessageOf(rounds[n].chunks) == Some(m) && Proper(m) && m.calls == []
    ensures Answers(rounds, m.content, calls)
  {
    SaidAt(rounds, n);
    assert FinalAt(Said(rounds), n, m.content, calls);
  }

  lemma AsksAgain(rounds: seq<Round>, n: nat, calls: seq<ToolCall>, m: Message)
    requires n < |rounds| && AskedSoFar(rounds, n, calls)
    requires MessageOf(rounds[n].chunks) == Some(m) && Proper(m) && m.calls != []
    ensures AskedSoFar(rounds, n + 1, calls + m.calls)
  {
    SaidAt(rounds, n);
  }

  /** There is an answer at `n` that the client takes. */
  ghost predicate DeliversAt(rounds: seq<Round>, n: nat)
  {
    exists text, calls :: FinalAt(Said(rounds), n, text, calls) && HeardThrough(rounds, n)
  }

  /** A candidate's rounds lead to an answer that the client takes. */
  ghost predicate Delivers(rounds: seq<Round>)
  {
    exists n: nat :: DeliversAt(rounds, n)
  }

  /** What leads to an answer is proper all along. */
  lemma ProperUntil(said: seq<Option<Message>>, n: nat, text: string, calls: seq<ToolCall>, i: nat)
    requires FinalAt(said, n, text, calls) && i <= n
    ensures said[i].Some? && Proper(said[i].value) && (said[i].value.calls == [] <==> i == n)
  {
    if i < n { AskedBefore(said, i + 1, n); }
  }

  /** A round leads on, or to the answer, if the client takes what it says. */
  ghost predicate Leads(round: Round, last: bool)
  {
    && var m := MessageOf(round.chunks);
    && m.Some? && Proper(m.value) && (m.value.calls == [] <==> last)
    && Heard(round.chunks) && (!last ==> Accepting(round.client))
  }

  lemma LeadsUntil(rounds: seq<Round>, n: nat, i: nat)
    requires DeliversAt(rounds, n) && i <= n
    ensures n < ROUNDS && n < |rounds| && Leads(rounds[i], i == n)
  {
    var text, calls :| FinalAt(Said(rounds), n, text, calls) && HeardThrough(rounds, n);
    ProperUntil(Said(rounds), n, text, calls, i);
    SaidAt(rounds, i);
  }

  /** The client takes all that is sent in a round. */
  predicate Taken(r: Round) { NoneRefused(r.chunks) && Accepting(r.client) }

  predicate AllTaken(rounds: seq<Round>) { forall i | 0 <= i < |rounds| :: Taken(rounds[i]) }

  method CheckCalls(calls: seq<ToolCall>) returns (ok: bool)
    ensures ok <==> AllTools(calls)
  {
    for i := 0 to |calls|
      invariant AllTools(calls[..i])
    {
      if calls[i].id == "" || calls[i].name != TOOL { return false; }
    }
    assert calls[..|calls|] == calls;
    return true;
  }

  /** One round. What it said before asking for the tool is reset. */
  method Play(id: Uuid, round: Round, gate: StreamGate) returns (r: Result<Message>)
    requires BufferOf(gate.buffers, id) == ""
    modifies gate
    ensures OnlyCandidate(old(gate.State()), gate.State(), id)
    ensures r.Ok? ==> MessageOf(round.chunks) == Some(r.value) && Proper(r.value)
    ensures r.Ok? ==> BufferOf(gate.buffers, id) == if r.value.calls == [] then r.value.content else ""
    ensures old(Open(gate.State())) && (Leads(round, true) || Leads(round, false)) ==> r.Ok? && Open(gate.State())
    ensures gate.broken ==> old(gate.broken) || !Taken(round)
  {
    r := StreamCompletion(id, round.chunks, gate);
    if r.Error? { return; }
    assert BufferOf(gate.buffers, id) == "" + r.value.content == r.value.content;
    if |r.value.calls| == 0 {
      if Trim(r.value.content) == "" { return Error; }
      return;
    }
    var checked := CheckCalls(r.value.calls);
    if !checked { return Error; }
    EmitConcernsCandidate(gate.State(), id, Reset, round.client);
    EmitAccepted(gate.State(), id, Reset, round.client);
    var ok := gate.Emit(id, Reset, round.client);
    if !ok { return Error; }
  }

  lemma WhenDue(rounds: seq<Round>, open: bool) returns (due: Option<nat>)
    ensures due.Some? <==> Delivers(rounds) && open
    ensures due.Some? ==> DeliversAt(rounds, due.value)
  {
    due := None;
    if n: nat :| DeliversAt(rounds, n) && open { due := Some(n); }
  }

  /** What a round comes to: the answer, more calls of the tool, or a failure. */
  datatype Turn = Final(response: Response) | Next(calls: seq<ToolCall>) | Failure

  /** The round with this number, after `calls`. An answer in the round `due` is not missed. */
  method TakeTurn(id: Uuid, rounds: seq<Round>, round: nat, calls: seq<ToolCall>, gate: StreamGate, ghost due: Option<nat>)
    returns (turn: Turn)
    requires BufferOf(gate.buffers, id) == "" && round < ROUNDS && AskedSoFar(rounds, round, calls)
    requires due.Some? ==> DeliversAt(rounds, due.value) && round <= due.value && Open(gate.State())
    modifies gate
    ensures OnlyCandidate(old(gate.State()), gate.State(), id)
    ensures turn.Final? ==> turn.response.text == Trim(BufferOf(gate.buffers, id))
    ensures turn.Final? ==> Answers(rounds, BufferOf(gate.buffers, id), turn.response.calls)
    ensures turn.Next? ==> BufferOf(gate.buffers, id) == "" && AskedSoFar(rounds, round + 1, turn.calls)
    ensures due.Some? ==> Open(gate.State()) && !turn.Failure? && (turn.Final? <==> round == due.value)
    ensures gate.broken ==> old(gate.broken) || !AllTaken(rounds)
  {
    if due.Some? { LeadsUntil(rounds, due.value, round); }
    if round >= |rounds| { return Failure; }
    var message := Play(id, rounds[round], gate);
    if message.Error? { return Failure; }
    if |message.value.calls| == 0 {
      AnswersNow(rounds, round, calls, message.value);
      return Final(Response(Trim(message.value.content), calls));
    }
    AsksAgain(rounds, round, calls, message.value);
    return Next(calls + message.value.calls);
  }

  /**
   A candidate's whole answer. Text before a tool call is not the answer: it is reset before the next round.
   The answer is the trimmed text of a round without tool calls, which is what the candidate's buffer holds, and it is
   given whenever there is one and the client takes what comes through an open gate.
   */
  method Answer(id: Uuid, rounds: seq<Round>, gate: StreamGate) returns (r: Result<Response>)
    requires BufferOf(gate.buffers, id) == ""
    modifies gate
    ensures OnlyCandidate(old(gate.State()), gate.State(), id)
    ensures r.Ok? ==> r.value.text == Trim(BufferOf(gate.buffers, id))
    ensures r.Ok? ==> Answers(rounds, BufferOf(gate.buffers, id), r.value.calls)
    ensures Delivers(rounds) && old(Open(gate.State())) ==> r.Ok? && Open(gate.State())
    ensures gate.broken ==> old(gate.broken) || !AllTaken(rounds)
  {
    var calls: seq<ToolCall> := [];
    ghost var due := WhenDue(rounds, Open(gate.State()));
    for round := 0 to ROUNDS
      invariant OnlyCandidate(old(gate.State()), gate.State(), id)
      invariant BufferOf(gate.buffers, id) == "" && AskedSoFar(rounds, round, calls)
      invariant due.Some? ==> DeliversAt(rounds, due.value) && round <= due.value && Open(gate.State())
      invariant gate.broken ==> old(gate.broken) || !AllTaken(rounds)
    {
      var turn := TakeTurn(id, rounds, round, calls, gate, due);
      if turn.Failure? { return Error; }
      if turn.Final? { return Ok(turn.response); }
      calls := turn.calls;
    }
    return Error;
  }

  /**
   A provider as the failover contacts it: `skipped` when its configuration is unusable and it is never called,
   `late` when its own deadline had passed by the time it answered, `abandoned` when the caller was gone by then.
   */
  datatype Candidate = Candidate(id: Uuid, rounds: seq<Round>, skipped: bool, late: bool, abandoned: bool, client: Client)

  ghost predicate DistinctIds(candidates: seq<Candidate>)
  {
    forall i, j | 0 <= i < j < |candidates| :: candidates[i].id != candidates[j].id
  }

  /** The candidate is called, its rounds lead to an answer, and that comes in time. */
  ghost predicate DeliversInTime(c: Candidate) { !c.skipped && !c.late && Delivers(c.rounds) }

  predicate Obliging(c: Candidate) { AllTaken(c.rounds) && Accepting(c.client) }

  predicate AllOblige(candidates: seq<Candidate>) { forall i | 0 <= i < |candidates| :: Obliging(candidates[i]) }

  /** No candidate before the `i`-th delivers in time, and the caller was there all along. */
  ghost predicate NoneBefore(candidates: seq<Candidate>, i: nat)
    requires i <= |candidates|
  {
    forall j | 0 <= j < i :: !DeliversInTime(candidates[j]) && !candidates[j].abandoned
  }

  /** The answer of the candidate `w`, given in time, of which the client sees `shown`. */
  ghost predicate AnswerOf(c: Candidate, shown: string, r: Response)
  {
    && !c.skipped && !c.late && !c.abandoned && r.text == Trim(shown)
    && Answers(c.rounds, shown, r.calls)
  }

  /** Why there is no answer though the client took all that was sent: the caller left, or nobody delivered in time. */
  ghost predicate NoAnswer(candidates: seq<Candidate>)
  {
    || NoneBefore(candidates, |candidates|)
    || exists j :: 0 <= j < |candidates| && candidates[j].abandoned && NoneBefore(candidates, j)
  }

  /** One candidate is called; if it fails its text is withdrawn. The buffers of the candidates after it stay empty. */
  method Try(c: Candidate, others: seq<Candidate>, gate: StreamGate) returns (r: Result<Response>)
    requires !gate.frozen && Faithful(gate.State()) && BufferOf(gate.buffers, c.id) == ""
    requires forall o | o in others :: o.id != c.id && BufferOf(gate.buffers, o.id) == ""
    modifies gate
    ensures !gate.frozen && Faithful(gate.State())
    ensures forall o | o in others :: BufferOf(gate.buffers, o.id) == ""
    ensures r.Ok? ==> r.value.text == Trim(BufferOf(gate.buffers, c.id))
    ensures r.Ok? ==> Answers(c.rounds, BufferOf(gate.buffers, c.id), r.value.calls)
    ensures Delivers(c.rounds) && !old(gate.broken) ==> r.Ok?
    ensures old(gate.broken) ==> gate.broken
    ensures gate.broken ==> old(gate.broken) || !Obliging(c)
  {
    r := Answer(c.id, c.rounds, gate);
    forall o | o in others ensures BufferOf(gate.buffers, o.id) == "" {
      OthersKeepTheirBuffers(old(gate.State()), gate.State(), c.id, o.id);
    }
    if r.Error? {
      FailedFaithful(gate.State(), c.id, c.client);
      gate.Fail(c.id, c.client);
    }
  }

  /**
   The first candidate that delivers in time answers: what the client reads, trimmed, whichever candidates streamed
   before it. There is no answer only if the client refused something, which ends the whole operation, the caller left,
   or nobody delivers in time.
   */
  method Stream(candidates: seq<Candidate>, client: Client) returns (r: Result<Response>, gate: StreamGate)
    requires DistinctIds(candidates)
    ensures fresh(gate) && gate.frozen
    ensures r.Ok? ==> exists w :: 0 <= w < |candidates| && NoneBefore(candidates, w)
                                  && Replay(gate.log) == BufferOf(gate.buffers, candidates[w].id)
                                  && AnswerOf(candidates[w], Replay(gate.log), r.value)
    ensures r.Error? ==> gate.broken || NoAnswer(candidates)
    ensures gate.broken ==> r.Error? && (!Accepting(client) || !AllOblige(candidates))
    ensures r.Error? && !gate.broken ==> Replay(gate.log) == Visible(gate.State())
  {
    gate := new StreamGate();
    var i := 0;
    while i < |candidates|
      invariant 0 <= i <= |candidates|
      invariant fresh(gate) && !gate.frozen && Faithful(gate.State())
      invariant forall j | i <= j < |candidates| :: BufferOf(gate.buffers, candidates[j].id) == ""
      invariant !gate.broken && NoneBefore(candidates, i)
    {
      var c := candidates[i];
      r := Error;
      if !c.skipped {
        r := Try(c, candidates[i + 1..], gate);
        assert forall j | i < j < |candidates| :: candidates[j] == candidates[i + 1..][j - i - 1];
      }
      if c.abandoned || gate.broken {
        gate.Shut();
        return Error, gate;
      }
      if r.Ok? && !c.late {
        CommitTaken(gate.State(), c.id, client);
        var shown := gate.Commit(c.id, client);
        if shown {
          return r, gate;
        }
        return Error, gate;
      }
      i := i + 1;
    }
    gate.Shut();
    return Error, gate;
  }

  /** A commit shows the winner, or the client has refused something. */
  lemma CommitTaken(g: Gate, id: Uuid, client: Client)
    requires Faithful(g)
    ensures var (g', ok) := CommitStep(g, id, client);
            && g'.buffers == g.buffers && g'.frozen && (ok <==> !g'.broken)
            && (ok ==> !g.broken && Replay(g'.log) == BufferOf(g.buffers, id))
            && (g'.broken ==> g.broken || !Accepting(client))
  {
    if CommitStep(g, id, client).1 { CommitShowsWinner(g, id, client); }
  }
}

/**
 Storing a listening test version and reading many versions back from one ordered left join.

 The columns of an entity other than its identity and position are one text. Identities are fresh numbers.
 */
module ListeningRows {
  import opened Common
  import opened Sorting

  datatype Question = Question(id: Uuid, position: nat, text: string)
  datatype Group = Group(id: Uuid, position: nat, text: string, questions: seq<Question>)
  datatype Part = Part(id: Uuid, position: nat, text: string, groups: seq<Group>)
  datatype Test = Test(version: Uuid, parts: seq<Part>)

  // ---- Storing. ----

  datatype GroupInput = GroupInput(text: string, questions: seq<string>)
  datatype PartInput = PartInput(text: string, groups: seq<GroupInput>)

  predicate QuestionsMatch(qs: seq<Question>, input: seq<string>)
  {
    |qs| == |input| && forall i | 0 <= i < |qs| :: qs[i].text == input[i] && qs[i].position == i + 1
  }

  predicate GroupsMatch(gs: seq<Group>, input: seq<GroupInput>)
  {
    && |gs| == |input|
    && forall i | 0 <= i < |gs| ::
         gs[i].text == input[i].text && gs[i].position == i + 1 && QuestionsMatch(gs[i].questions, input[i].questions)
  }

  predicate PartsMatch(ps: seq<Part>, input: seq<PartInput>)
  {
    && |ps| == |input|
    && forall i | 0 <= i < |ps| ::
         ps[i].text == input[i].text && ps[i].position == i + 1 && GroupsMatch(ps[i].groups, input[i].groups)
  }

  /** Identities of groups grow within a part, and lie in a range. */
  predicate GroupsWithin(gs: seq<Group>, low: nat, high: nat)
  {
    && (forall i | 0 <= i < |gs| :: low <= gs[i].id < high)
    && (forall i, j | 0 <= i < j < |gs| :: gs[i].id < gs[j].id)
  }

  /** Identities of parts grow; each part's groups lie between it and the next part. */
  predicate PartsWithin(ps: seq<Part>, low: nat, high: nat)
  {
    && (forall i | 0 <= i < |ps| :: low <= ps[i].id < high && GroupsWithin(ps[i].groups, ps[i].id, high))
    && (forall i, j | 0 <= i < j < |ps| :: ps[i].id < ps[j].id && GroupsWithin(ps[i].groups, ps[i].id, ps[j].id))
  }

  class Repository {
    var next: nat

    method InsertQuestions(input: seq<string>) returns (qs: seq<Question>)
      modifies this
      ensures QuestionsMatch(qs, input) && next == old(next) + |input|
    {
      qs := [];
      for i := 0 to |input|
        invariant QuestionsMatch(qs, input[..i]) && next == old(next) + i
      {
        qs := qs + [Question(next, i + 1, input[i])];
        next := next + 1;
      }
    }

    method InsertGroups(input: seq<GroupInput>) returns (gs: seq<Group>)
      modifies this
      ensures GroupsMatch(gs, input) && GroupsWithin(gs, old(next), next) && next >= old(next)
    {
      gs := [];
      for i := 0 to |input|
        invariant GroupsMatch(gs, input[..i]) && GroupsWithin(gs, old(next), next) && next >= old(next)
      {
        var id := next;
        next := next + 1;
        var questions := InsertQuestions(input[i].questions);
        gs := gs + [Group(id, i + 1, input[i].text, questions)];
      }
    }

    method InsertVersion(version: Uuid, input: seq<PartInput>) returns (test: Test)
      modifies this
      ensures test.version == version && PartsMatch(test.parts, input)
      ensures PartsWithin(test.parts, old(next), next)
    {
      var parts: seq<Part> := [];
      for i := 0 to |input|
        invariant PartsMatch(parts, input[..i]) && PartsWithin(parts, old(next), next) && next >= old(next)
      {
        var id := next;
        next := next + 1;
        var groups := InsertGroups(input[i].groups);
        var part := Part(id, i + 1, input[i].text, groups);
        assert forall k | 0 <= k < i :: GroupsWithin(parts[k].groups, parts[k].id, id);
        parts := parts + [part];
      }
      assert input[..|input|] == input;
      return Test(version, parts);
    }
  }

  // ---- The rows of the join. ----

  datatype PartHead = PartHead(id: Uuid, position: nat, text: string)
  datatype GroupHead = GroupHead(id: Uuid, position: nat, text: string)
  datatype Row = Row(version: Uuid, part: PartHead, group: Option<GroupHead>, question: Option<Question>)

  function HeadOf(p: Part): PartHead { PartHead(p.id, p.position, p.text) }
  function GroupHeadOf(g: Group): GroupHead { GroupHead(g.id, g.position, g.text) }

  function RowsOfGroup(v: Uuid, p: PartHead, g: Group): (r: seq<Row>)
  {
    if g.questions == [] then [Row(v, p, Some(GroupHeadOf(g)), None)]
    else seq(|g.questions|, i requires 0 <= i < |g.questions| => Row(v, p, Some(GroupHeadOf(g)), Some(g.questions[i])))
  }

  function RowsOfGroups(v: Uuid, p: PartHead, gs: seq<Group>): seq<Row>
  {
    if gs == [] then [] else RowsOfGroups(v, p, gs[..|gs| - 1]) + RowsOfGroup(v, p, gs[|gs| - 1])
  }

  function RowsOfPart(v: Uuid, p: Part): seq<Row>
  {
    if p.groups == [] then [Row(v, HeadOf(p), None, None)] else RowsOfGroups(v, HeadOf(p), p.groups)
  }

  function RowsOfParts(v: Uuid, ps: seq<Part>): seq<Row>
  {
    if ps == [] then [] else RowsOfParts(v, ps[..|ps| - 1]) + RowsOfPart(v, ps[|ps| - 1])
  }

  function RowsOfTests(ts: seq<Test>): seq<Row>
  {
    if ts == [] then [] else RowsOfTests(ts[..|ts| - 1]) + RowsOfParts(ts[|ts| - 1].version, ts[|ts| - 1].parts)
  }

  /** Ascending, a missing value last. */
  predicate NullsLast(a: Option<nat>, b: Option<nat>) { a.Some? && (b.None? || a.value < b.value) }

  function GroupPosition(r: Row): Option<nat> { if r.group.Some? then Some(r.group.value.position) else None }
  function QuestionPosition(r: Row): Option<nat> { if r.question.Some? then Some(r.question.value.position) else None }

  /** By version, part, group and question position. */
  predicate RowBefore(a: Row, b: Row)
  {
    if a.version != b.version then a.version < b.version
    else if a.part.position != b.part.position then a.part.position < b.part.position
    else if GroupPosition(a) != GroupPosition(b) then NullsLast(GroupPosition(a), GroupPosition(b))
    else NullsLast(QuestionPosition(a), QuestionPosition(b))
  }

  // ---- Folding the rows. ----

  datatype Nest = Nest(
    parts: map<Uuid, seq<Part>>, partIndex: map<(Uuid, Uuid), nat>, groupIndex: map<(Uuid, Uuid), (nat, nat)>)

  const EMPTY := Nest(map[], map[], map[])

  function PartsOf(parts: map<Uuid, seq<Part>>, v: Uuid): seq<Part> { if v in parts then parts[v] else [] }

  predicate PartAt(parts: map<Uuid, seq<Part>>, v: Uuid, i: nat) { i < |PartsOf(parts, v)| }

  predicate GroupAt(parts: map<Uuid, seq<Part>>, v: Uuid, at: (nat, nat))
  {
    PartAt(parts, v, at.0) && at.1 < |PartsOf(parts, v)[at.0].groups|
  }

  /** Every index entry points at a part, and at a group. */
  ghost predicate Pointing(n: Nest)
  {
    && (forall k | k in n.partIndex :: PartAt(n.parts, k.0, n.partIndex[k]))
    && (forall k | k in n.groupIndex :: GroupAt(n.parts, k.0, n.groupIndex[k]))
  }

  /** A version's parts may only grow, and so may their groups. */
  predicate Grows(ps: seq<Part>, ps': seq<Part>)
  {
    |ps| <= |ps'| && forall i | 0 <= i < |ps| :: |ps[i].groups| <= |ps'[i].groups|
  }

  lemma StillPointing(n: Nest, v: Uuid, ps: seq<Part>)
    requires Pointing(n) && Grows(PartsOf(n.parts, v), ps)
    ensures Pointing(n.(parts := n.parts[v := ps]))
  {
    var parts := n.parts[v := ps];
    forall k | k in n.partIndex ensures PartAt(parts, k.0, n.partIndex[k]) {
      assert PartAt(n.parts, k.0, n.partIndex[k]);
    }
    forall k | k in n.groupIndex ensures GroupAt(parts, k.0, n.groupIndex[k]) {
      assert GroupAt(n.parts, k.0, n.groupIndex[k]);
    }
  }

  function EnsurePart(n: Nest, v: Uuid, p: PartHead): (r: Nest)
    requires Pointing(n)
    ensures Pointing(r) && (v, p.id) in r.partIndex
  {
    if (v, p.id) in n.partIndex then n
    else
      var parts := PartsOf(n.parts, v);
      var grown := parts + [Part(p.id, p.position, p.text, [])];
      StillPointing(n, v, grown);
      n.(partIndex := n.partIndex[(v, p.id) := |parts|], parts := n.parts[v := grown])
  }

  function EnsureGroup(n: Nest, v: Uuid, p: PartHead, g: GroupHead): (r: Nest)
    requires Pointing(n) && (v, p.id) in n.partIndex
    ensures Pointing(r) && (v, g.id) in r.groupIndex
  {
    if (v, g.id) in n.groupIndex then n
    else
      var parts, pi := PartsOf(n.parts, v), n.partIndex[(v, p.id)];
      assert PartAt(n.parts, v, pi);
      var part := parts[pi];
      var grown := parts[pi := part.(groups := part.groups + [Group(g.id, g.position, g.text, [])])];
      StillPointing(n, v, grown);
      n.(groupIndex := n.groupIndex[(v, g.id) := (pi, |part.groups|)], parts := n.parts[v := grown])
  }

  function AddQuestion(n: Nest, v: Uuid, g: Uuid, q: Question): (r: Nest)
    requires Pointing(n) && (v, g) in n.groupIndex
    ensures Pointing(r)
  {
    var parts, at := PartsOf(n.parts, v), n.groupIndex[(v, g)];
    assert GroupAt(n.parts, v, at);
    var part := parts[at.0];
    var group := part.groups[at.1];
    var grown := parts[at.0 := part.(groups := part.groups[at.1 := group.(questions := group.questions + [q])])];
    StillPointing(n, v, grown);
    n.(parts := n.parts[v := grown])
  }

  function Step(n: Nest, r: Row): (r': Nest)
    requires Pointing(n)
    ensures Pointing(r')
  {
    var n1 := EnsurePart(n, r.version, r.part);
    if r.group.None? then n1
    else
      var n2 := EnsureGroup(n1, r.version, r.part, r.group.value);
      if r.question.None? then n2 else AddQuestion(n2, r.version, r.group.value.id, r.question.value)
  }

  function Fold(n: Nest, rows: seq<Row>): (r: Nest)
    requires Pointing(n)
    ensures Pointing(r)
  {
    if rows == [] then n else Step(Fold(n, rows[..|rows| - 1]), rows[|rows| - 1])
  }

  method PartsByVersion(rows: seq<Row>) returns (parts: map<Uuid, seq<Part>>)
    ensures parts == Fold(EMPTY, rows).parts
  {
    parts := map[];
    var partIndex: map<(Uuid, Uuid), nat>, groupIndex: map<(Uuid, Uuid), (nat, nat)> := map[], map[];
    for i := 0 to |rows|
      invariant Fold(EMPTY, rows[..i]) == Nest(parts, partIndex, groupIndex)
    {
      assert rows[..i + 1][..i] == rows[..i];
      var row := rows[i];
      var v := row.version;
      ghost var n0 := Nest(parts, partIndex, groupIndex);
      ghost var n1 := EnsurePart(n0, v, row.part);
      var partKey := (v, row.part.id);
      if partKey !in partIndex {
        var known := PartsOf(parts, v);
        partIndex := partIndex[partKey := |known|];
        parts := parts[v := known + [Part(row.part.id, row.part.position, row.part.text, [])]];
      }
      assert n1 == Nest(parts, partIndex, groupIndex);
      var pi := partIndex[partKey];
      assert PartAt(parts, v, pi);
      if row.group.None? { continue; }
      var group := row.group.value;
      ghost var n2 := EnsureGroup(n1, v, row.part, group);
      var groupKey := (v, group.id);
      if groupKey !in groupIndex {
        var part := parts[v][pi];
        groupIndex := groupIndex[groupKey := (pi, |part.groups|)];
        parts := parts[v := parts[v][pi := part.(groups := part.groups + [Group(group.id, group.position, group.text, [])])]];
      }
      assert n2 == Nest(parts, partIndex, groupIndex);
      var location := groupIndex[groupKey];
      assert GroupAt(parts, v, location);
      if row.question.Some? {
        var part := parts[v][location.0];
        var group := part.groups[location.1];
        parts := parts[v := parts[v][location.0 := part.(groups :=
          part.groups[location.1 := group.(questions := group.questions + [row.question.value])])]];
      }
    }
    assert rows[..|rows|] == rows;
  }
}

/** Reading listening tests back gives exactly what was stored. */
module ListeningRowsTheorems {
  import opened Common
  import opened Sorting
  import opened ListeningRows

  // ---- Sound tests. ----

  ghost predicate QuestionsPlaced(qs: seq<Question>)
  {
    forall i, j | 0 <= i < j < |qs| :: qs[i].position < qs[j].position
  }

  ghost predicate GroupsPlaced(gs: seq<Group>)
  {
    && (forall i | 0 <= i < |gs| :: QuestionsPlaced(gs[i].questions))
    && (forall i, j | 0 <= i < j < |gs| :: gs[i].position < gs[j].position && gs[i].id != gs[j].id)
  }

  /** No group of the one part is a group of the other. */
  ghost predicate Apart(p: Part, q: Part)
  {
    p.id != q.id && forall a, b | a in p.groups && b in q.groups :: a.id != b.id
  }

  ghost predicate PartsPlaced(ps: seq<Part>)
  {
    && (forall i | 0 <= i < |ps| :: GroupsPlaced(ps[i].groups))
    && (forall i, j | 0 <= i < j < |ps| :: ps[i].position < ps[j].position && Apart(ps[i], ps[j]))
  }

  /** Tests listed by version, with positions in order and identities that differ within a version. */
  ghost predicate Sound(ts: seq<Test>)
  {
    && (forall i | 0 <= i < |ts| :: PartsPlaced(ts[i].parts))
    && (forall i, j | 0 <= i < j < |ts| :: ts[i].version < ts[j].version)
  }

  /** What was just stored is sound. */
  lemma StoredIsSound(test: Test, input: seq<PartInput>, low: nat, high: nat)
    requires PartsMatch(test.parts, input) && PartsWithin(test.parts, low, high)
    ensures Sound([test])
  {
    var ps := test.parts;
    forall i | 0 <= i < |ps| ensures GroupsPlaced(ps[i].groups) {
      assert GroupsMatch(ps[i].groups, input[i].groups) && GroupsWithin(ps[i].groups, ps[i].id, high);
    }
    forall i, j | 0 <= i < j < |ps| ensures Apart(ps[i], ps[j]) {
      assert GroupsWithin(ps[i].groups, ps[i].id, ps[j].id) && GroupsWithin(ps[j].groups, ps[j].id, high);
      forall a, b | a in ps[i].groups && b in ps[j].groups ensures a.id != b.id {
        assert a.id < ps[j].id <= b.id;
      }
    }
  }

  // ---- ORDER BY brings the rows into one order. ----

  ghost predicate Ascending(rows: seq<Row>)
  {
    forall i, j | 0 <= i < j < |rows| :: RowBefore(rows[i], rows[j])
  }

  lemma AscendingConcat(a: seq<Row>, b: seq<Row>)
    requires Ascending(a) && Ascending(b) && forall x, y | x in a && y in b :: RowBefore(x, y)
    ensures Ascending(a + b)
  {
  }

  /** A row of one of these groups. */
  ghost predicate OfGroups(r: Row, v: Uuid, p: PartHead, gs: seq<Group>)
  {
    r.version == v && r.part == p && r.group.Some? && exists i :: 0 <= i < |gs| && r.group.value == GroupHeadOf(gs[i])
  }

  lemma OfMoreGroups(r: Row, v: Uuid, p: PartHead, gs: seq<Group>)
    requires GroupsPlaced(gs) && gs != [] && OfGroups(r, v, p, gs[..|gs| - 1])
    ensures OfGroups(r, v, p, gs) && r.group.value.position < gs[|gs| - 1].position
  {
    var i :| 0 <= i < |gs| - 1 && r.group.value == GroupHeadOf(gs[..|gs| - 1][i]);
    assert gs[..|gs| - 1][i] == gs[i];
  }

  lemma GroupAscends(v: Uuid, p: PartHead, g: Group)
    requires QuestionsPlaced(g.questions)
    ensures Ascending(RowsOfGroup(v, p, g))
    ensures forall r | r in RowsOfGroup(v, p, g) :: r.version == v && r.part == p && r.group == Some(GroupHeadOf(g))
  {
  }

  lemma {:induction false} GroupsAscend(v: Uuid, p: PartHead, gs: seq<Group>)
    requires GroupsPlaced(gs)
    ensures Ascending(RowsOfGroups(v, p, gs))
    ensures forall r | r in RowsOfGroups(v, p, gs) :: OfGroups(r, v, p, gs)
  {
    if gs != [] {
      var front, last := gs[..|gs| - 1], gs[|gs| - 1];
      GroupsAscend(v, p, front);
      GroupAscends(v, p, last);
      forall r | r in RowsOfGroups(v, p, front)
        ensures OfGroups(r, v, p, gs) && r.group.value.position < last.position
      {
        OfMoreGroups(r, v, p, gs);
      }
      AscendingConcat(RowsOfGroups(v, p, front), RowsOfGroup(v, p, last));
      forall r | r in RowsOfGroup(v, p, last) ensures OfGroups(r, v, p, gs) {
        assert r.group.value == GroupHeadOf(gs[|gs| - 1]);
      }
    }
  }

  lemma PartAscends(v: Uuid, p: Part)
    requires GroupsPlaced(p.groups)
    ensures Ascending(RowsOfPart(v, p))
    ensures forall r | r in RowsOfPart(v, p) :: r.version == v && r.part == HeadOf(p)
  {
    GroupsAscend(v, HeadOf(p), p.groups);
  }

  lemma {:induction false} PartsAscend(v: Uuid, ps: seq<Part>)
    requires PartsPlaced(ps)
    ensures Ascending(RowsOfParts(v, ps))
    ensures forall r | r in RowsOfParts(v, ps) :: r.version == v && exists i :: 0 <= i < |ps| && r.part == HeadOf(ps[i])
  {
    if ps != [] {
      var front, last := ps[..|ps| - 1], ps[|ps| - 1];
      PartsAscend(v, front);
      PartAscends(v, last);
      forall r | r in RowsOfParts(v, front)
        ensures exists i :: 0 <= i < |ps| && r.part == HeadOf(ps[i])
        ensures r.part.position < last.position
      {
        var i :| 0 <= i < |front| && r.part == HeadOf(front[i]);
        assert front[i] == ps[i];
      }
      AscendingConcat(RowsOfParts(v, front), RowsOfPart(v, last));
      forall r | r in RowsOfPart(v, last) ensures exists i :: 0 <= i < |ps| && r.part == HeadOf(ps[i]) {
        assert r.part == HeadOf(ps[|ps| - 1]);
      }
    }
  }

  lemma {:induction false} TestsAscend(ts: seq<Test>)
    requires Sound(ts)
    ensures Ascending(RowsOfTests(ts))
    ensures forall r | r in RowsOfTests(ts) :: exists i :: 0 <= i < |ts| && r.version == ts[i].version
  {
    if ts != [] {
      var front, last := ts[..|ts| - 1], ts[|ts| - 1];
      TestsAscend(front);
      PartsAscend(last.version, last.parts);
      forall r | r in RowsOfTests(front)
        ensures exists i :: 0 <= i < |ts| && r.version == ts[i].version
        ensures r.version < last.version
      {
        var i :| 0 <= i < |front| && r.version == front[i].version;
        assert front[i] == ts[i];
      }
      AscendingConcat(RowsOfTests(front), RowsOfParts(last.version, last.parts));
      forall r | r in RowsOfParts(last.version, last.parts)
        ensures exists i :: 0 <= i < |ts| && r.version == ts[i].version
      {
        assert r.version == ts[|ts| - 1].version;
      }
    }
  }

  lemma RowBeforeIsAnOrder()
    ensures StrictWeakOrder(RowBefore)
  {
  }

  lemma AscendingIsDecisive(rows: seq<Row>)
    requires Ascending(rows)
    ensures Ordered(RowBefore, rows) && Decisive(RowBefore, rows)
  {
    RowBeforeIsAnOrder();
    forall x, y | x in rows && y in rows && x != y ensures RowBefore(x, y) || RowBefore(y, x) {
      var i :| 0 <= i < |rows| && rows[i] == x;
      var j :| 0 <= j < |rows| && rows[j] == y;
      assert i < j || j < i;
    }
  }

  /** However the join delivers its rows, ordering them gives the tests one after the other, part by part. */
  lemma OrderByFindsTheTests(ts: seq<Test>, rows: seq<Row>)
    requires Sound(ts) && multiset(rows) == multiset(RowsOfTests(ts))
    ensures Sort(RowBefore, rows) == RowsOfTests(ts)
  {
    TestsAscend(ts);
    AscendingIsDecisive(RowsOfTests(ts));
    RowBeforeIsAnOrder();
    SortForgetsOrder(RowBefore, RowsOfTests(ts), rows);
    SortOfOrdered(RowBefore, RowsOfTests(ts));
  }

  // ---- Folding rebuilds the nesting. ----

  lemma FoldLast(n: Nest, rows: seq<Row>, r: Row)
    requires Pointing(n)
    ensures Fold(n, rows + [r]) == Step(Fold(n, rows), r)
  {
    assert (rows + [r])[..|rows|] == rows;
  }

  lemma ConcatSplit(a: seq<Row>, b: seq<Row>)
    requires b != []
    ensures a + b == a + b[..|b| - 1] + [b[|b| - 1]] && b == b[..|b| - 1] + [b[|b| - 1]]
  {
  }

  lemma {:induction false} FoldConcat(n: Nest, a: seq<Row>, b: seq<Row>)
    requires Pointing(n)
    ensures Fold(n, a + b) == Fold(Fold(n, a), b)
  {
    if b == [] {
      assert a + b == a;
    } else {
      var front, last := b[..|b| - 1], b[|b| - 1];
      FoldConcat(n, a, front);
      FoldLast(n, a + front, last);
      FoldLast(Fold(n, a), front, last);
      ConcatSplit(a, b);
    }
  }

  /** The last part of a version gains a group. */
  function Grown(n: Nest, v: Uuid, g: Group): Nest
  {
    var ps := PartsOf(n.parts, v);
    if ps == [] then n
    else
      var last := ps[|ps| - 1];
      n.(parts := n.parts[v := ps[|ps| - 1 := last.(groups := last.groups + [g])]],
         groupIndex := n.groupIndex[(v, g.id) := (|ps| - 1, |last.groups|)])
  }

  /** The version's last part is the part the rows speak about. */
  ghost predicate Open(n: Nest, v: Uuid, p: PartHead)
  {
    Pointing(n) && (v, p.id) in n.partIndex && n.partIndex[(v, p.id)] == |PartsOf(n.parts, v)| - 1
  }

  lemma OpenGroup(n: Nest, v: Uuid, p: PartHead, g: Group)
    requires Open(n, v, p) && (v, g.id) !in n.groupIndex
    ensures EnsureGroup(n, v, p, GroupHeadOf(g)) == Grown(n, v, g.(questions := []))
  {
    assert PartAt(n.parts, v, n.partIndex[(v, p.id)]);
  }

  lemma GrownIsOpen(n: Nest, v: Uuid, p: PartHead, g: Group)
    requires Open(n, v, p)
    ensures Open(Grown(n, v, g), v, p) && (v, g.id) in Grown(n, v, g).groupIndex
  {
    assert PartAt(n.parts, v, n.partIndex[(v, p.id)]);
    var ps := PartsOf(n.parts, v);
    var last := ps[|ps| - 1];
    StillPointing(n, v, ps[|ps| - 1 := last.(groups := last.groups + [g])]);
  }

  lemma ExtendGroup(n: Nest, v: Uuid, p: PartHead, g: Group, q: Question)
    requires Open(n, v, p)
    ensures Open(Grown(n, v, g), v, p) && (v, g.id) in Grown(n, v, g).groupIndex
    ensures AddQuestion(Grown(n, v, g), v, g.id, q) == Grown(n, v, g.(questions := g.questions + [q]))
  {
    GrownIsOpen(n, v, p, g);
    assert PartAt(n.parts, v, n.partIndex[(v, p.id)]);
    var ps := PartsOf(n.parts, v);
    var last, i := ps[|ps| - 1], |ps| - 1;
    var g' := g.(questions := g.questions + [q]);
    assert (last.groups + [g])[|last.groups| := g'] == last.groups + [g'];
    var grown := ps[i := last.(groups := last.groups + [g])];
    assert grown[i := last.(groups := last.groups + [g'])] == ps[i := last.(groups := last.groups + [g'])];
    var n1 := Grown(n, v, g);
    assert n1.parts[v := ps[i := last.(groups := last.groups + [g'])]] == Grown(n, v, g').parts;
  }

  lemma FirstQuestion(n: Nest, v: Uuid, p: PartHead, g: Group, q: Question)
    requires Open(n, v, p) && (v, g.id) !in n.groupIndex
    ensures Step(n, Row(v, p, Some(GroupHeadOf(g)), Some(q))) == Grown(n, v, g.(questions := [q]))
  {
    OpenGroup(n, v, p, g);
    ExtendGroup(n, v, p, g.(questions := []), q);
    assert [] + [q] == [q];
  }

  lemma NextQuestion(n: Nest, v: Uuid, p: PartHead, g: Group, q: Question)
    requires Open(n, v, p) && Open(Grown(n, v, g), v, p)
    ensures Step(Grown(n, v, g), Row(v, p, Some(GroupHeadOf(g)), Some(q))) == Grown(n, v, g.(questions := g.questions + [q]))
  {
    ExtendGroup(n, v, p, g, q);
  }

  lemma FoldOne(n: Nest, r: Row)
    requires Pointing(n)
    ensures Fold(n, [r]) == Step(n, r)
  {
    assert [r][..0] == [];
  }

  lemma {:induction false} FoldGroup(n: Nest, v: Uuid, p: PartHead, g: Group)
    requires Open(n, v, p) && (v, g.id) !in n.groupIndex
    ensures Fold(n, RowsOfGroup(v, p, g)) == Grown(n, v, g)
    decreases |g.questions|
  {
    var rows, k := RowsOfGroup(v, p, g), |g.questions|;
    if k == 0 {
      FoldOne(n, rows[0]);
      OpenGroup(n, v, p, g);
    } else if k == 1 {
      assert rows == [rows[0]] && g.questions == [g.questions[0]];
      FoldOne(n, rows[0]);
      FirstQuestion(n, v, p, g, g.questions[0]);
    } else {
      var front, q := g.(questions := g.questions[..k - 1]), g.questions[k - 1];
      assert GroupHeadOf(front) == GroupHeadOf(g) && |RowsOfGroup(v, p, front)| == k - 1;
      assert forall i | 0 <= i < k - 1 :: RowsOfGroup(v, p, front)[i] == rows[i];
      assert rows == RowsOfGroup(v, p, front) + [rows[k - 1]] && g.questions == front.questions + [q];
      FoldGroup(n, v, p, front);
      FoldConcat(n, RowsOfGroup(v, p, front), [rows[k - 1]]);
      FoldOne(Grown(n, v, front), rows[k - 1]);
      GrownIsOpen(n, v, p, front);
      NextQuestion(n, v, p, front, q);
    }
  }

  function WithGroups(ps: seq<Part>, gs: seq<Group>): seq<Part>
  {
    if ps == [] then [] else ps[|ps| - 1 := ps[|ps| - 1].(groups := ps[|ps| - 1].groups + gs)]
  }

  /** The version's last part has gained the groups, and nothing else has changed. */
  ghost predicate Gained(n: Nest, n': Nest, v: Uuid, gs: seq<Group>)
  {
    && n'.partIndex == n.partIndex && n'.parts == n.parts[v := WithGroups(PartsOf(n.parts, v), gs)]
    && forall k | k in n'.groupIndex && k !in n.groupIndex :: k.0 == v && exists g :: g in gs && k.1 == g.id
  }

  lemma GainedOne(n: Nest, n1: Nest, v: Uuid, gs: seq<Group>, g: Group)
    requires Gained(n, n1, v, gs) && PartsOf(n.parts, v) != []
    ensures Gained(n, Grown(n1, v, g), v, gs + [g])
  {
    var ps := PartsOf(n.parts, v);
    assert ps[|ps| - 1].groups + gs + [g] == ps[|ps| - 1].groups + (gs + [g]);
    var n2 := Grown(n1, v, g);
    assert n2.parts[v] == WithGroups(ps, gs + [g]);
    assert g in gs + [g];
  }

  lemma GainedNone(n: Nest, v: Uuid)
    requires v in n.parts
    ensures Gained(n, n, v, [])
  {
    var ps := n.parts[v];
    if ps != [] {
      var last := ps[|ps| - 1];
      assert last.groups + [] == last.groups && ps[|ps| - 1 := last] == ps;
    }
    assert n.parts[v := ps] == n.parts;
  }

  lemma NextGroupIsGained(n: Nest, n1: Nest, v: Uuid, p: PartHead, gs: seq<Group>)
    requires Open(n, v, p) && gs != [] && GroupsPlaced(gs) && Pointing(n1) && Gained(n, n1, v, gs[..|gs| - 1])
    requires PartsOf(n.parts, v) != [] && forall g | g in gs :: (v, g.id) !in n.groupIndex
    ensures Fold(n1, RowsOfGroup(v, p, gs[|gs| - 1])) == Grown(n1, v, gs[|gs| - 1])
  {
    assert (v, gs[|gs| - 1].id) !in n1.groupIndex;
    FoldGroup(n1, v, p, gs[|gs| - 1]);
  }

  lemma {:induction false} FoldGroups(n: Nest, v: Uuid, p: PartHead, gs: seq<Group>)
    requires Open(n, v, p) && GroupsPlaced(gs)
    requires forall g | g in gs :: (v, g.id) !in n.groupIndex
    ensures Gained(n, Fold(n, RowsOfGroups(v, p, gs)), v, gs)
  {
    assert PartAt(n.parts, v, n.partIndex[(v, p.id)]);
    if gs == [] {
      GainedNone(n, v);
    } else {
      var front, last := gs[..|gs| - 1], gs[|gs| - 1];
      assert front + [last] == gs;
      FoldGroups(n, v, p, front);
      FoldConcat(n, RowsOfGroups(v, p, front), RowsOfGroup(v, p, last));
      var n1 := Fold(n, RowsOfGroups(v, p, front));
      NextGroupIsGained(n, n1, v, p, gs);
      GainedOne(n, n1, v, front, last);
    }
  }

  lemma {:induction false} EnsureFirst(n: Nest, rows: seq<Row>, v: Uuid, p: PartHead)
    requires Pointing(n) && rows != [] && forall r | r in rows :: r.version == v && r.part == p
    ensures Fold(n, rows) == Fold(EnsurePart(n, v, p), rows)
  {
    var front := rows[..|rows| - 1];
    if front != [] { EnsureFirst(n, front, v, p); }
  }

  ghost predicate GainedPart(n: Nest, n': Nest, v: Uuid, p: Part)
  {
    && n'.parts == n.parts[v := PartsOf(n.parts, v) + [p]]
    && n'.partIndex.Keys == n.partIndex.Keys + {(v, p.id)}
    && forall k | k in n'.groupIndex && k !in n.groupIndex :: k.0 == v && exists g :: g in p.groups && k.1 == g.id
  }

  lemma {:induction false} GroupRowsExist(v: Uuid, p: PartHead, gs: seq<Group>)
    requires gs != []
    ensures RowsOfGroups(v, p, gs) != []
  {
  }

  lemma EmptyPart(n: Nest, v: Uuid, p: Part)
    requires Pointing(n) && (v, p.id) !in n.partIndex
    ensures GainedPart(n, EnsurePart(n, v, HeadOf(p)), v, p.(groups := []))
    ensures Open(EnsurePart(n, v, HeadOf(p)), v, HeadOf(p))
  {
  }

  lemma FullPart(n: Nest, n1: Nest, n2: Nest, v: Uuid, p: Part)
    requires GainedPart(n, n1, v, p.(groups := [])) && Gained(n1, n2, v, p.groups)
    ensures GainedPart(n, n2, v, p)
  {
    var ps := PartsOf(n.parts, v);
    assert [] + p.groups == p.groups;
    assert WithGroups(ps + [p.(groups := [])], p.groups) == ps + [p];
    assert n1.parts[v := ps + [p]] == n.parts[v := ps + [p]];
  }

  lemma FoldPart(n: Nest, v: Uuid, p: Part)
    requires Pointing(n) && GroupsPlaced(p.groups) && (v, p.id) !in n.partIndex
    requires forall g | g in p.groups :: (v, g.id) !in n.groupIndex
    ensures GainedPart(n, Fold(n, RowsOfPart(v, p)), v, p)
  {
    EmptyPart(n, v, p);
    if p.groups == [] {
      FoldOne(n, Row(v, HeadOf(p), None, None));
    } else {
      var n1 := EnsurePart(n, v, HeadOf(p));
      GroupRowsExist(v, HeadOf(p), p.groups);
      PartAscends(v, p);
      EnsureFirst(n, RowsOfPart(v, p), v, HeadOf(p));
      FoldGroups(n1, v, HeadOf(p), p.groups);
      FullPart(n, n1, Fold(n1, RowsOfGroups(v, HeadOf(p), p.groups)), v, p);
    }
  }

  ghost predicate GainedParts(n: Nest, n': Nest, v: Uuid, ps: seq<Part>)
  {
    && n'.parts == (if ps == [] then n.parts else n.parts[v := ps])
    && (forall k | k in n'.partIndex && k !in n.partIndex :: k.0 == v && exists p :: p in ps && k.1 == p.id)
    && (forall k | k in n'.groupIndex && k !in n.groupIndex ::
          k.0 == v && exists p, g :: p in ps && g in p.groups && k.1 == g.id)
  }

  lemma GainedOnePart(n: Nest, n1: Nest, n2: Nest, v: Uuid, ps: seq<Part>, p: Part)
    requires v !in n.parts && GainedParts(n, n1, v, ps) && GainedPart(n1, n2, v, p)
    ensures GainedParts(n, n2, v, ps + [p])
  {
    assert PartsOf(n1.parts, v) == ps;
    assert n2.parts == n.parts[v := ps + [p]];
    assert p in ps + [p];
  }

  lemma NextPartIsNew(n: Nest, n1: Nest, v: Uuid, ps: seq<Part>)
    requires ps != [] && PartsPlaced(ps) && GainedParts(n, n1, v, ps[..|ps| - 1])
    requires (forall k | k in n.partIndex :: k.0 != v) && (forall k | k in n.groupIndex :: k.0 != v)
    ensures (v, ps[|ps| - 1].id) !in n1.partIndex
    ensures forall g | g in ps[|ps| - 1].groups :: (v, g.id) !in n1.groupIndex
  {
    var front, last := ps[..|ps| - 1], ps[|ps| - 1];
    forall p | p in front ensures Apart(p, last) {
      var i :| 0 <= i < |front| && front[i] == p;
      assert Apart(ps[i], ps[|ps| - 1]);
    }
  }

  lemma NextPartIsGained(n: Nest, n1: Nest, v: Uuid, ps: seq<Part>)
    requires Pointing(n1) && ps != [] && PartsPlaced(ps) && GainedParts(n, n1, v, ps[..|ps| - 1])
    requires (forall k | k in n.partIndex :: k.0 != v) && (forall k | k in n.groupIndex :: k.0 != v)
    ensures GainedPart(n1, Fold(n1, RowsOfPart(v, ps[|ps| - 1])), v, ps[|ps| - 1])
  {
    NextPartIsNew(n, n1, v, ps);
    FoldPart(n1, v, ps[|ps| - 1]);
  }

  lemma {:induction false} FoldParts(n: Nest, v: Uuid, ps: seq<Part>)
    requires Pointing(n) && PartsPlaced(ps) && v !in n.parts
    requires (forall k | k in n.partIndex :: k.0 != v) && (forall k | k in n.groupIndex :: k.0 != v)
    ensures GainedParts(n, Fold(n, RowsOfParts(v, ps)), v, ps)
  {
    if ps != [] {
      var front, last := ps[..|ps| - 1], ps[|ps| - 1];
      assert front + [last] == ps;
      FoldParts(n, v, front);
      FoldConcat(n, RowsOfParts(v, front), RowsOfPart(v, last));
      var n1 := Fold(n, RowsOfParts(v, front));
      NextPartIsGained(n, n1, v, ps);
      GainedOnePart(n, n1, Fold(n1, RowsOfPart(v, last)), v, front, last);
    }
  }

  /** What a reader expects: the parts of each version that has any. */
  function Nested(ts: seq<Test>): map<Uuid, seq<Part>>
  {
    if ts == [] then map[]
    else
      var before, last := Nested(ts[..|ts| - 1]), ts[|ts| - 1];
      if last.parts == [] then before else before[last.version := last.parts]
  }

  ghost predicate OnlyVersionsOf(n: Nest, ts: seq<Test>)
  {
    && (forall v | v in n.parts :: exists t :: t in ts && v == t.version)
    && (forall k | k in n.partIndex :: exists t :: t in ts && k.0 == t.version)
    && (forall k | k in n.groupIndex :: exists t :: t in ts && k.0 == t.version)
  }

  lemma {:induction false} FoldTests(ts: seq<Test>)
    requires Sound(ts)
    ensures Fold(EMPTY, RowsOfTests(ts)).parts == Nested(ts) && OnlyVersionsOf(Fold(EMPTY, RowsOfTests(ts)), ts)
  {
    if ts != [] {
      var front, last := ts[..|ts| - 1], ts[|ts| - 1];
      FoldTests(front);
      FoldConcat(EMPTY, RowsOfTests(front), RowsOfParts(last.version, last.parts));
      var n := Fold(EMPTY, RowsOfTests(front));
      forall t | t in front ensures t.version != last.version {
        var i :| 0 <= i < |front| && front[i] == t;
        assert ts[i].version < ts[|ts| - 1].version;
      }
      FoldParts(n, last.version, last.parts);
    }
  }

  /**
   Round trip: rows of the left join in any arrangement, brought into order and folded, give exactly the stored
   parts of every version, parts without groups and groups without questions included.
   */
  lemma RoundTrip(ts: seq<Test>, rows: seq<Row>)
    requires Sound(ts) && multiset(rows) == multiset(RowsOfTests(ts))
    ensures Fold(EMPTY, Sort(RowBefore, rows)).parts == Nested(ts)
  {
    OrderByFindsTheTests(ts, rows);
    FoldTests(ts);
  }

  lemma {:induction false} NestedFinds(ts: seq<Test>, t: Test)
    requires Sound(ts) && t in ts
    ensures PartsOf(Nested(ts), t.version) == t.parts
    ensures forall v | v in Nested(ts) :: exists u :: u in ts && u.version == v
  {
    var front, last := ts[..|ts| - 1], ts[|ts| - 1];
    forall u | u in front ensures u.version != last.version {
      var i :| 0 <= i < |front| && front[i] == u;
      assert ts[i].version < ts[|ts| - 1].version;
    }
    if front != [] { NestedFinds(front, if t in front then t else front[0]); }
  }

  /** Saving a version and loading it among others gives what was saved. */
  lemma SaveThenLoad(ts: seq<Test>, t: Test, rows: seq<Row>)
    requires Sound(ts) && t in ts && multiset(rows) == multiset(RowsOfTests(ts))
    ensures PartsOf(Fold(EMPTY, Sort(RowBefore, rows)).parts, t.version) == t.parts
  {
    RoundTrip(ts, rows);
    NestedFinds(ts, t);
  }
}

/**
 Generating a full mock: resuming, restarting, and a guest's retake, all under one lock per user. Sessions are kept in
 the order they were started. Random draws, the guest's trial, the admission of a retake and the quota are given.
 */
module MockGenerator {
  import opened Common
  import opened AssessmentRows
  import opened FullMockRows

  datatype Candidate = Candidate(skill: Skill, material: Uuid, completed: bool, previous: bool)

  // ---- Choosing a material. ----

  function OfSkill(items: seq<Candidate>, skill: Skill): seq<Candidate>
  {
    if items == [] then []
    else OfSkill(items[..|items| - 1], skill) + if items[|items| - 1].skill == skill then [items[|items| - 1]] else []
  }

  function Unseen(items: seq<Candidate>): seq<Candidate>
  {
    if items == [] then []
    else Unseen(items[..|items| - 1]) + if items[|items| - 1].completed then [] else [items[|items| - 1]]
  }

  function Other(items: seq<Candidate>): seq<Candidate>
  {
    if items == [] then []
    else Other(items[..|items| - 1]) + if items[|items| - 1].previous then [] else [items[|items| - 1]]
  }

  function Pool(items: seq<Candidate>, skill: Skill): seq<Candidate>
  {
    var all := OfSkill(items, skill);
    if Unseen(all) != [] then Unseen(all) else if Other(all) != [] then Other(all) else all
  }

  method SelectionPool(items: seq<Candidate>, skill: Skill) returns (pool: seq<Candidate>)
    ensures pool == Pool(items, skill)
  {
    var all: seq<Candidate>, unseen: seq<Candidate>, other: seq<Candidate> := [], [], [];
    for i := 0 to |items|
      invariant all == OfSkill(items[..i], skill) && unseen == Unseen(all) && other == Other(all)
    {
      assert items[..i + 1][..i] == items[..i];
      if items[i].skill != skill { continue; }
      assert (all + [items[i]])[..|all|] == all;
      all := all + [items[i]];
      if !items[i].completed { unseen := unseen + [items[i]]; }
      if !items[i].previous { other := other + [items[i]]; }
    }
    assert items[..|items|] == items;
    if |unseen| > 0 { return unseen; }
    if |other| > 0 { return other; }
    return all;
  }

  lemma {:induction false} OfSkillFinds(items: seq<Candidate>, skill: Skill)
    ensures forall c :: c in OfSkill(items, skill) <==> c in items && c.skill == skill
  {
    if items != [] {
      OfSkillFinds(items[..|items| - 1], skill);
      assert items == items[..|items| - 1] + [items[|items| - 1]];
    }
  }

  lemma {:induction false} UnseenFinds(items: seq<Candidate>)
    ensures forall c :: c in Unseen(items) <==> c in items && !c.completed
  {
    if items != [] {
      UnseenFinds(items[..|items| - 1]);
      assert items == items[..|items| - 1] + [items[|items| - 1]];
    }
  }

  lemma {:induction false} OtherFinds(items: seq<Candidate>)
    ensures forall c :: c in Other(items) <==> c in items && !c.previous
  {
    if items != [] {
      OtherFinds(items[..|items| - 1]);
      assert items == items[..|items| - 1] + [items[|items| - 1]];
    }
  }

  /**
   A material is repeated only when every material of the skill has been completed, and the previous draw only when
   there is no other; there is something to draw exactly when the bank has something.
   */
  lemma NoNeedlessRepeat(items: seq<Candidate>, skill: Skill)
    ensures Pool(items, skill) != [] <==> exists c :: c in items && c.skill == skill
    ensures forall c | c in Pool(items, skill) :: c in items && c.skill == skill
    ensures forall c, x | c in Pool(items, skill) && c.completed && x in items && x.skill == skill :: x.completed
    ensures forall c, x | c in Pool(items, skill) && c.completed && c.previous && x in items && x.skill == skill :: x.previous
  {
    var all := OfSkill(items, skill);
    OfSkillFinds(items, skill);
    UnseenFinds(all);
    OtherFinds(all);
    if all != [] { assert all[0] in all; }
    if Unseen(all) != [] { assert Unseen(all)[0] in Unseen(all); }
    if Other(all) != [] { assert Other(all)[0] in Other(all); }
    forall x | x in items && x.skill == skill ensures x in all {}
    if Pool(items, skill) != [] { assert Pool(items, skill)[0] in Pool(items, skill); }
  }

  // ---- Sessions. ----

  /** A section as it was drawn, with the state its attempt is in. */
  datatype Drawn = Drawn(skill: Skill, material: Uuid, status: Status)

  /** A session as the generator looks at it, its sections with what was drawn for them. */
  datatype Mock = Mock(user: Uuid, status: SessionStatus, sections: seq<Drawn>) {
    predicate Running() { status.SessionInProgress? }
  }

  datatype Trial = NoTrial | UsableTrial | SpentTrial

  /** What surrounds one call. */
  datatype Given = Given(trial: Trial, hasExamType: bool, items: seq<Candidate>, draw: Skill -> nat, admits: bool, quota: bool)

  datatype Result =
    | Created(id: nat) | Resumed(id: nat)
    | GuestUnavailable | SourceNotFound | RetakeNotReady | ExamTypeRequired | BankIncomplete | PaymentRequired

  /** The user's latest session, or none. */
  function Latest(s: seq<Mock>, user: Uuid): Option<nat>
  {
    if s == [] then None else if s[|s| - 1].user == user then Some(|s| - 1) else Latest(s[..|s| - 1], user)
  }

  function LatestRunning(s: seq<Mock>, user: Uuid): Option<nat>
  {
    if s == [] then None
    else if s[|s| - 1].user == user && s[|s| - 1].Running() then Some(|s| - 1)
    else LatestRunning(s[..|s| - 1], user)
  }

  function Stop(a: Drawn): Drawn { if a.status.InProgress? then a.(status := Abandoned) else a }

  /** The user's running session is given up, and what it has in progress; what is being assessed goes on. */
  function StopRunning(s: seq<Mock>, user: Uuid): seq<Mock>
  {
    seq(|s|, i requires 0 <= i < |s| =>
      if s[i].user == user && s[i].Running() then
        s[i].(status := SessionAbandoned,
              sections := seq(|s[i].sections|, k requires 0 <= k < |s[i].sections| => Stop(s[i].sections[k])))
      else s[i])
  }

  predicate BankReady(items: seq<Candidate>) { forall k | k in SKILLS :: exists c :: c in items && c.skill == k }

  function Draw(g: Given, skill: Skill): Drawn
    requires BankReady(g.items)
  {
    NoNeedlessRepeat(g.items, skill);
    assert skill in SKILLS;
    var pool := Pool(g.items, skill);
    Drawn(skill, pool[g.draw(skill) % |pool|].material, InProgress)
  }

  function Selected(g: Given): seq<Drawn>
    requires BankReady(g.items)
  {
    [Draw(g, Listening), Draw(g, Reading), Draw(g, Writing), Draw(g, Speaking)]
  }

  function CreateTx(s: seq<Mock>, user: Uuid, restart: bool, retake: bool, g: Given): (seq<Mock>, Result)
  {
    if !g.hasExamType && g.trial.NoTrial? then (s, ExamTypeRequired)
    else if !BankReady(g.items) then (s, BankIncomplete)
    else if retake && !g.admits then (s, GuestUnavailable)
    else if !g.quota then (s, PaymentRequired)
    else ((if restart then StopRunning(s, user) else s) + [Mock(user, SessionInProgress, Selected(g))], Created(|s|))
  }

  function GenerateTx(s: seq<Mock>, user: Uuid, restart: bool, source: Option<nat>, g: Given): (seq<Mock>, Result)
  {
    var guest := !g.trial.NoTrial?;
    if g.trial.SpentTrial? then (s, GuestUnavailable)
    else if source.Some? && !guest then (s, SourceNotFound)
    else if guest && source.Some? && (source.value >= |s| || s[source.value].user != user) then (s, SourceNotFound)
    else if guest && source.Some? && !s[source.value].status.SessionSubmitted? then (s, RetakeNotReady)
    else if guest && Latest(s, user).Some? && Latest(s, user) != source then (s, Resumed(Latest(s, user).value))
    else if LatestRunning(s, user).Some? && !restart then (s, Resumed(LatestRunning(s, user).value))
    else CreateTx(s, user, restart, source.Some?, g)
  }

  class Repository {
    var sessions: seq<Mock>

    constructor ()
      ensures sessions == []
    {
      sessions := [];
    }

    method FindLatest(user: Uuid, running: bool) returns (id: Option<nat>)
      ensures id == if running then LatestRunning(sessions, user) else Latest(sessions, user)
    {
      var i := |sessions|;
      assert sessions[..|sessions|] == sessions;
      while i > 0
        invariant 0 <= i <= |sessions|
        invariant (if running then LatestRunning(sessions, user) else Latest(sessions, user))
               == if running then LatestRunning(sessions[..i], user) else Latest(sessions[..i], user)
      {
        assert sessions[..i][..i - 1] == sessions[..i - 1];
        if sessions[i - 1].user == user && (!running || sessions[i - 1].Running()) { return Some(i - 1); }
        i := i - 1;
      }
      return None;
    }

    method StopSections(sections: seq<Drawn>) returns (stopped: seq<Drawn>)
      ensures stopped == seq(|sections|, k requires 0 <= k < |sections| => Stop(sections[k]))
    {
      stopped := sections;
      for k := 0 to |sections|
        invariant |stopped| == |sections|
        invariant forall j | 0 <= j < |sections| :: stopped[j] == if j < k then Stop(sections[j]) else sections[j]
      {
        if stopped[k].status.InProgress? { stopped := stopped[k := stopped[k].(status := Abandoned)]; }
      }
    }

    method AbandonRunning(user: Uuid)
      modifies this
      ensures sessions == StopRunning(old(sessions), user)
    {
      for i := 0 to |sessions|
        invariant |sessions| == |old(sessions)|
        invariant forall j | 0 <= j < |sessions| :: sessions[j] == if j < i then StopRunning(old(sessions), user)[j] else old(sessions)[j]
      {
        if sessions[i].user == user && sessions[i].Running() {
          var stopped := StopSections(sessions[i].sections);
          sessions := sessions[i := sessions[i].(status := SessionAbandoned, sections := stopped)];
        }
      }
    }

    method DrawOne(g: Given, skill: Skill) returns (s: Drawn)
      requires BankReady(g.items)
      ensures s == Draw(g, skill)
    {
      var pool := SelectionPool(g.items, skill);
      NoNeedlessRepeat(g.items, skill);
      assert skill in SKILLS;
      s := Drawn(skill, pool[g.draw(skill) % |pool|].material, InProgress);
    }

    method Select(g: Given) returns (selected: seq<Drawn>)
      requires BankReady(g.items)
      ensures selected == Selected(g)
    {
      selected := [];
      for i := 0 to 4
        invariant selected == Selected(g)[..i]
      {
        var next := DrawOne(g, SKILLS[i]);
        assert next == Selected(g)[i];
        selected := selected + [next];
      }
    }

    method Generate(user: Uuid, restart: bool, source: Option<nat>, g: Given) returns (r: Result)
      modifies this
      ensures (sessions, r) == GenerateTx(old(sessions), user, restart, source, g)
    {
      var guest := !g.trial.NoTrial?;
      if guest && g.trial.SpentTrial? { return GuestUnavailable; }
      if source.Some? && !guest { return SourceNotFound; }
      if guest {
        if source.Some? {
          if source.value >= |sessions| || sessions[source.value].user != user { return SourceNotFound; }
          if !sessions[source.value].status.SessionSubmitted? { return RetakeNotReady; }
        }
        var existing := FindLatest(user, false);
        if existing.Some? && existing != source { return Resumed(existing.value); }
      }
      var active := FindLatest(user, true);
      if active.Some? && !restart { return Resumed(active.value); }
      if !g.hasExamType && !guest { return ExamTypeRequired; }
      if !BankReady(g.items) { return BankIncomplete; }
      var selected := Select(g);
      if source.Some? && !g.admits { return GuestUnavailable; }
      if !g.quota { return PaymentRequired; }
      var id := |sessions|;
      if restart { AbandonRunning(user); }
      sessions := sessions + [Mock(user, SessionInProgress, selected)];
      return Created(id);
    }
  }

  // ---- Over any run. ----

  datatype Event =
    | Generate(user: Uuid, restart: bool, source: Option<nat>, given: Given)
    | Finish(id: nat)
    | Abandon(id: nat)
    | Progress(session: nat, section: nat, status: Status)

  function Apply(s: seq<Mock>, e: Event): seq<Mock>
  {
    match e
    case Generate(user, restart, source, given) => GenerateTx(s, user, restart, source, given).0
    case Finish(id) => if id < |s| && s[id].Running() then s[id := s[id].(status := SessionSubmitted)] else s
    case Abandon(id) => if id < |s| && s[id].Running() then s[id := s[id].(status := SessionAbandoned)] else s
    case Progress(session, section, status) =>
      if session < |s| && section < |s[session].sections| then
        s[session := s[session].(sections := s[session].sections[section := s[session].sections[section].(status := status)])]
      else s
  }

  function Run(s: seq<Mock>, es: seq<Event>): seq<Mock>
  {
    if es == [] then s else Apply(Run(s, es[..|es| - 1]), es[|es| - 1])
  }

  ghost predicate OneRunning(s: seq<Mock>)
  {
    forall i, j | 0 <= i < j < |s| && s[i].user == s[j].user && s[i].Running() :: !s[j].Running()
  }

  lemma {:induction false} LatestRunningFinds(s: seq<Mock>, user: Uuid)
    ensures LatestRunning(s, user).None? <==> forall i | 0 <= i < |s| && s[i].user == user :: !s[i].Running()
    ensures LatestRunning(s, user).Some? ==>
              LatestRunning(s, user).value < |s| && s[LatestRunning(s, user).value].user == user && s[LatestRunning(s, user).value].Running()
  {
    if s != [] { LatestRunningFinds(s[..|s| - 1], user); }
  }

  lemma {:induction false} LatestFinds(s: seq<Mock>, user: Uuid)
    ensures LatestRunning(s, user).Some? ==> Latest(s, user).Some?
    ensures Latest(s, user).Some? ==>
              Latest(s, user).value < |s| && s[Latest(s, user).value].user == user
              && forall i | Latest(s, user).value < i < |s| :: s[i].user != user
    ensures Latest(s, user).None? ==> forall i | 0 <= i < |s| :: s[i].user != user
  {
    if s != [] { LatestFinds(s[..|s| - 1], user); }
  }

  /** With the generator as the only creator a user never has two running sessions. */
  lemma {:induction false} AtMostOneRunning(es: seq<Event>)
    ensures OneRunning(Run([], es))
  {
    if es != [] {
      var s, e := Run([], es[..|es| - 1]), es[|es| - 1];
      AtMostOneRunning(es[..|es| - 1]);
      if e.Generate? { LatestRunningFinds(s, e.user); }
    }
  }

  /** A refusal, and resuming, change nothing; a restart leaves no attempt of the old session in progress. */
  lemma RestartStopsTheOld(s: seq<Mock>, user: Uuid, source: Option<nat>, g: Given, i: nat, k: nat)
    requires GenerateTx(s, user, true, source, g).1.Created?
    requires i < |s| && s[i].user == user && s[i].Running() && k < |s[i].sections|
    ensures var s' := GenerateTx(s, user, true, source, g).0;
            && |s'| == |s| + 1 && s'[|s|].user == user && s'[|s|].Running()
            && (forall x | x in s'[|s|].sections :: x.status.InProgress?)
            && s'[i].status.SessionAbandoned? && k < |s'[i].sections|
            && s'[i].sections[k].status == if s[i].sections[k].status.InProgress? then Abandoned else s[i].sections[k].status
  {
  }

  lemma SessionStays(s: seq<Mock>, e: Event)
    ensures |Apply(s, e)| >= |s|
    ensures forall i | 0 <= i < |s| ::
              Apply(s, e)[i].user == s[i].user && (!s[i].Running() ==> Apply(s, e)[i].status == s[i].status)
  {
  }

  /** Sessions keep their place and their user, and one that is over stays as it ended. */
  lemma {:induction false} SessionsStay(s: seq<Mock>, es: seq<Event>)
    ensures |Run(s, es)| >= |s|
    ensures forall i | 0 <= i < |s| ::
              Run(s, es)[i].user == s[i].user && (!s[i].Running() ==> Run(s, es)[i].status == s[i].status)
  {
    if es != [] {
      SessionsStay(s, es[..|es| - 1]);
      SessionStays(Run(s, es[..|es| - 1]), es[|es| - 1]);
    }
  }

  /**
   Once a retake of a finished mock has been created, every later retake of the same mock gives the guest's latest
   session and creates nothing, however often and whenever it is asked for, even when that session is over.
   */
  lemma RetakenOnce(s: seq<Mock>, user: Uuid, source: nat, g: Given, later: seq<Event>, again: Given, restart: bool)
    requires GenerateTx(s, user, false, Some(source), g).1.Created? && again.trial.UsableTrial?
    ensures var s' := Run(GenerateTx(s, user, false, Some(source), g).0, later);
            var r := GenerateTx(s', user, restart, Some(source), again);
            r.0 == s' && r.1.Resumed? && r.1.id > source && Latest(s', user) == Some(r.1.id)
  {
    var s1 := GenerateTx(s, user, false, Some(source), g).0;
    SessionsStay(s1, later);
    var s' := Run(s1, later);
    LatestFinds(s', user);
    assert s'[|s|].user == user;
  }

  /** The four sections of a mock, each of its skill, from the bank, and repeated only where nothing else is left. */
  ghost predicate WellDrawn(items: seq<Candidate>, sections: seq<Drawn>)
  {
    && |sections| == 4 && sections[0].skill == Listening && sections[1].skill == Reading
    && sections[2].skill == Writing && sections[3].skill == Speaking
    && forall k | 0 <= k < 4 :: sections[k].status.InProgress? && NotRepeated(items, sections[k])
  }

  ghost predicate NotRepeated(items: seq<Candidate>, d: Drawn)
  {
    exists c :: c in items && c.skill == d.skill && c.material == d.material
      && (c.completed ==> forall x | x in items && x.skill == d.skill :: x.completed)
      && (c.completed && c.previous ==> forall x | x in items && x.skill == d.skill :: x.previous)
  }

  lemma DrawnFromBank(g: Given, skill: Skill)
    requires BankReady(g.items)
    ensures Draw(g, skill).skill == skill && Draw(g, skill).status.InProgress? && NotRepeated(g.items, Draw(g, skill))
  {
    var pool := Pool(g.items, skill);
    NoNeedlessRepeat(g.items, skill);
    assert skill in SKILLS;
    assert pool[g.draw(skill) % |pool|] in pool;
  }

  lemma SelectedIsWellDrawn(g: Given)
    requires BankReady(g.items)
    ensures WellDrawn(g.items, Selected(g))
  {
    DrawnFromBank(g, Listening);
    DrawnFromBank(g, Reading);
    DrawnFromBank(g, Writing);
    DrawnFromBank(g, Speaking);
  }

  /** A created mock has its four sections; without a restart nothing else changes. */
  lemma CreatedIsDrawn(s: seq<Mock>, user: Uuid, restart: bool, source: Option<nat>, g: Given)
    requires GenerateTx(s, user, restart, source, g).1.Created?
    ensures var (s', r) := GenerateTx(s, user, restart, source, g);
            && r.id == |s| && |s'| == |s| + 1 && (!restart ==> s'[..|s|] == s)
            && s'[|s|].user == user && s'[|s|].Running() && WellDrawn(g.items, s'[|s|].sections)
  {
    SelectedIsWellDrawn(g);
  }

  /** A student gets a new mock exactly when none is running, or it is to be given up, and all that it takes is there. */
  lemma StudentsAreServed(s: seq<Mock>, user: Uuid, restart: bool, g: Given)
    requires g.trial.NoTrial?
    ensures var (s', r) := GenerateTx(s, user, restart, None, g);
            && (r.Created? <==>
                  && (restart || forall i | 0 <= i < |s| && s[i].user == user :: !s[i].Running())
                  && g.hasExamType && g.quota && forall k | k in SKILLS :: exists c :: c in g.items && c.skill == k)
            && (r.Resumed? <==> !restart && exists i :: 0 <= i < |s| && s[i].user == user && s[i].Running())
            && (r.Resumed? ==> r.id < |s| && s[r.id].user == user && s[r.id].Running())
            && (!r.Created? ==> s' == s)
  {
    LatestRunningFinds(s, user);
  }

  /** A guest who has ever had a mock gets no other one by starting again: the latest is all there is. */
  lemma GuestsHaveOne(s: seq<Mock>, user: Uuid, restart: bool, g: Given)
    requires g.trial.UsableTrial? && exists i :: 0 <= i < |s| && s[i].user == user
    ensures var (s', r) := GenerateTx(s, user, restart, None, g);
            && s' == s && r.Resumed? && r.id < |s| && s[r.id].user == user
            && forall i | r.id < i < |s| :: s[i].user != user
  {
    LatestFinds(s, user);
  }

  /** A retake is created only of the guest's own latest mock, finished, and admitted. */
  lemma RetakesAreOfTheLatest(s: seq<Mock>, user: Uuid, restart: bool, source: nat, g: Given)
    ensures var r := GenerateTx(s, user, restart, Some(source), g).1;
            r.Created? <==>
              && g.trial.UsableTrial? && source < |s| && s[source].user == user && s[source].status.SessionSubmitted?
              && (forall i | source < i < |s| :: s[i].user != user)
              && (restart || forall i | 0 <= i < |s| && s[i].user == user :: !s[i].Running())
              && g.admits && g.quota && forall k | k in SKILLS :: exists c :: c in g.items && c.skill == k
  {
    LatestFinds(s, user);
    LatestRunningFinds(s, user);
  }
}

/** Free quota under the user's lock, and the one open practice attempt per material. */
module Quota {
  import opened Common

  datatype Kind = AttemptSource | SessionSource

  /** What a unit was charged for: the primary key of a usage row. */
  datatype Source = Source(kind: Kind, id: Uuid, skill: Skill)

  /** What the account is entitled to just now. */
  datatype Standing = Standing(staff: bool, guest: bool, active: bool)

  datatype Attempt = Attempt(user: Uuid, skill: Skill, material: Uuid, isOpen: bool, inSession: bool)

  datatype Db = Db(users: set<Uuid>, usage: map<Source, Uuid>, attempts: map<Uuid, Attempt>)

  datatype Result = Created(attempt: Uuid) | Existing(attempt: Uuid) | Fine | PaymentRequired(skill: Skill) | NotFound | Conflict

  /** The rows charged to a user for a skill. */
  function Charged(usage: map<Source, Uuid>, user: Uuid, skill: Skill): set<Source>
  {
    set s | s in usage && usage[s] == user && s.skill == skill
  }

  function Remaining(usage: map<Source, Uuid>, limits: Skill -> nat, user: Uuid, skill: Skill): nat
  {
    var used := |Charged(usage, user, skill)|;
    if limits(skill) > used then limits(skill) - used else 0
  }

  /** The skills of a source that are not charged yet. */
  function Pending(usage: map<Source, Uuid>, kind: Kind, id: Uuid, skills: seq<Skill>): seq<Skill>
  {
    if skills == [] then []
    else
      var last := skills[|skills| - 1];
      Pending(usage, kind, id, skills[..|skills| - 1]) + (if Source(kind, id, last) in usage then [] else [last])
  }

  /** The first skill with nothing left. */
  function Exhausted(usage: map<Source, Uuid>, limits: Skill -> nat, user: Uuid, skills: seq<Skill>): Option<Skill>
  {
    if skills == [] then None
    else if Remaining(usage, limits, user, skills[0]) < 1 then Some(skills[0])
    else Exhausted(usage, limits, user, skills[1..])
  }

  function Record(usage: map<Source, Uuid>, user: Uuid, kind: Kind, id: Uuid, skills: seq<Skill>): map<Source, Uuid>
  {
    if skills == [] then usage
    else
      var before, s := Record(usage, user, kind, id, skills[..|skills| - 1]), Source(kind, id, skills[|skills| - 1]);
      if s in before then before else before[s := user]
  }

  function ConsumeTx(d: Db, limits: Skill -> nat, enabled: bool, user: Uuid, a: Standing, kind: Kind, id: Uuid, skills: seq<Skill>)
    : (Db, Result)
  {
    if !enabled then (d, Fine)
    else if user !in d.users then (d, NotFound)
    else if a.staff || a.guest || a.active then (d, Fine)
    else
      var pending := Pending(d.usage, kind, id, skills);
      var none := Exhausted(d.usage, limits, user, pending);
      if none.Some? then (d, PaymentRequired(none.value))
      else (d.(usage := Record(d.usage, user, kind, id, pending)), Fine)
  }

  function ClaimTx(d: Db, enabled: bool, user: Uuid, staff: bool, session: Uuid): (Db, Result)
  {
    if !enabled then (d, Fine)
    else if user !in d.users then (d, NotFound)
    else if staff then (d, Fine)
    else (d.(usage := Record(d.usage, user, SessionSource, session, SKILLS)), Fine)
  }

  predicate OpenPractice(a: Attempt, user: Uuid, skill: Skill, material: Uuid)
  {
    a.user == user && a.skill == skill && a.material == material && a.isOpen && !a.inSession
  }

  /** `existing` is the open attempt the query found, if there is one. */
  function CreatePracticeTx(d: Db, limits: Skill -> nat, enabled: bool, user: Uuid, a: Standing, skill: Skill, material: Uuid,
                            id: Uuid, existing: Option<Uuid>)
    : (Db, Result)
  {
    if user !in d.users then (d, NotFound)
    else if existing.Some? then (d, Existing(existing.value))
    else
      var (d1, r) := ConsumeTx(d, limits, enabled, user, a, AttemptSource, id, [skill]);
      if !r.Fine? then (d, r)
      else if id in d.attempts then (d, Conflict)
      else (d1.(attempts := d.attempts[id := Attempt(user, skill, material, true, false)]), Created(id))
  }

  /** The query finds an open attempt exactly when there is one. */
  ghost predicate Finds(d: Db, user: Uuid, skill: Skill, material: Uuid, existing: Option<Uuid>)
  {
    && (existing.Some? ==> existing.value in d.attempts && OpenPractice(d.attempts[existing.value], user, skill, material))
    && (existing.None? ==> forall i | i in d.attempts :: !OpenPractice(d.attempts[i], user, skill, material))
  }

  // ---- The service over its tables. ----

  class Service {
    const users: set<Uuid>
    const limits: Skill -> nat
    const enabled: bool
    var usage: map<Source, Uuid>
    var attempts: map<Uuid, Attempt>

    ghost function Tables(): Db
      reads this
    {
      Db(users, usage, attempts)
    }

    constructor (users: set<Uuid>, limits: Skill -> nat, enabled: bool)
      ensures Tables() == Db(users, map[], map[]) && this.limits == limits && this.enabled == enabled
    {
      this.users, this.limits, this.enabled, usage, attempts := users, limits, enabled, map[], map[];
    }

    method RecordUsage(user: Uuid, kind: Kind, id: Uuid, skills: seq<Skill>)
      modifies this`usage
      ensures usage == Record(old(usage), user, kind, id, skills)
    {
      for i := 0 to |skills|
        invariant usage == Record(old(usage), user, kind, id, skills[..i])
      {
        assert skills[..i + 1][..i] == skills[..i];
        if Source(kind, id, skills[i]) !in usage { usage := usage[Source(kind, id, skills[i]) := user]; }
      }
      assert skills[..|skills|] == skills;
    }

    method QuotaError(user: Uuid, skills: seq<Skill>) returns (none: Option<Skill>)
      ensures none == Exhausted(usage, limits, user, skills)
    {
      var i := 0;
      while i < |skills|
        invariant 0 <= i <= |skills|
        invariant Exhausted(usage, limits, user, skills) == Exhausted(usage, limits, user, skills[i..])
      {
        assert skills[i..][1..] == skills[i + 1..];
        if Remaining(usage, limits, user, skills[i]) < 1 { return Some(skills[i]); }
        i := i + 1;
      }
      return None;
    }

    method Consume(user: Uuid, a: Standing, kind: Kind, id: Uuid, skills: seq<Skill>) returns (r: Result)
      modifies this`usage
      ensures (Tables(), r) == ConsumeTx(old(Tables()), limits, enabled, user, a, kind, id, skills)
    {
      if !enabled { return Fine; }
      if user !in users { return NotFound; }
      if a.staff || a.guest || a.active { return Fine; }
      var pending: seq<Skill> := [];
      for i := 0 to |skills|
        invariant pending == Pending(usage, kind, id, skills[..i])
      {
        assert skills[..i + 1][..i] == skills[..i];
        if Source(kind, id, skills[i]) !in usage { pending := pending + [skills[i]]; }
      }
      assert skills[..|skills|] == skills;
      var none := QuotaError(user, pending);
      if none.Some? { return PaymentRequired(none.value); }
      RecordUsage(user, kind, id, pending);
      return Fine;
    }

    method Claim(user: Uuid, staff: bool, session: Uuid) returns (r: Result)
      modifies this`usage
      ensures (Tables(), r) == ClaimTx(old(Tables()), enabled, user, staff, session)
    {
      if !enabled { return Fine; }
      if user !in users { return NotFound; }
      if staff { return Fine; }
      RecordUsage(user, SessionSource, session, SKILLS);
      return Fine;
    }

    /** Two clicks on one material give one attempt and one charge. */
    method CreatePractice(user: Uuid, a: Standing, skill: Skill, material: Uuid, id: Uuid) returns (r: Result)
      modifies this
      ensures exists existing :: Finds(old(Tables()), user, skill, material, existing) &&
                (Tables(), r) == CreatePracticeTx(old(Tables()), limits, enabled, user, a, skill, material, id, existing)
    {
      var existing: Option<Uuid> := None;
      if i :| i in attempts && OpenPractice(attempts[i], user, skill, material) { existing := Some(i); }
      assert Finds(Tables(), user, skill, material, existing);
      if user !in users { return NotFound; }
      if existing.Some? { return Existing(existing.value); }
      if id in attempts {
        // The insert would fail and take the charge back.
        var probe := ConsumeTx(Db(users, usage, attempts), limits, enabled, user, a, AttemptSource, id, [skill]).1;
        return if probe.Fine? then Conflict else probe;
      }
      r := Consume(user, a, AttemptSource, id, [skill]);
      if !r.Fine? { return; }
      attempts := attempts[id := Attempt(user, skill, material, true, false)];
      return Created(id);
    }
  }
}

/** Loading the grading materials of many attempts through both caches gives what loading each directly gives. */
module GradingMaterials {
  import opened Common
  import opened GradingCache

  datatype Summary = Summary(id: Uuid, skill: Skill, ref: Ref)

  /**
   What is outside: which skills have a provider, which of these can load in bulk and what that returns for some
   versions, the clock at each reading, whether the shared cache answers, how identifiers are written, and in which
   order the entries of a map are visited.
   */
  datatype World = World(
    direct: Direct, providers: set<Skill>, bulkSkills: set<Skill>, bulk: (Skill, seq<Ref>) -> Option<map<Ref, Material>>,
    clock: nat -> int, reachable: bool, write: Writing, visit: map<Key, Entry> -> seq<Key>,
    visitRefs: map<Ref, Material> -> seq<Ref>)

  /** A bulk query returns versions as they are, though not always all of them; visiting a map misses nothing. */
  ghost predicate Sound(w: World)
  {
    && Faithful(w.write) && (forall m, k | k in m :: k in w.visit(m)) && (forall m, r | r in m :: r in w.visitRefs(m))
    && forall s, refs | w.bulk(s, refs).Some? :: forall r | r in w.bulk(s, refs).value :: w.direct(Key(s, r)) == Some(w.bulk(s, refs).value[r])
  }

  ghost predicate CachesAgree(w: World, cache: LocalCache, shared: SharedCache)
    reads cache, shared
  {
    cache.Valid(w.direct) && SharedAgrees(shared.data, w.direct, w.write)
  }

  /** Everything that was asked for, and everything as it is. */
  ghost predicate Complete(w: World, skill: Skill, refs: seq<Ref>, loaded: map<Ref, Material>)
  {
    (forall r | r in refs :: r in loaded) && Correct(w, skill, loaded)
  }

  ghost predicate Correct(w: World, skill: Skill, loaded: map<Ref, Material>)
  {
    forall r | r in loaded :: w.direct(Key(skill, r)) == Some(loaded[r])
  }

  ghost predicate Exist(w: World, skill: Skill, refs: seq<Ref>) { forall r | r in refs :: w.direct(Key(skill, r)).Some? }

  ghost predicate BulkWorks(w: World, skill: Skill) { forall refs :: w.bulk(skill, refs).Some? }

  // ---- Such surroundings exist, for any materials. ----

  ghost function Listed<K(!new), V>(m: map<K, V>): seq<K>
    decreases |m|
  {
    if |m| == 0 then []
    else
      assert m.Keys != {};
      var k :| k in m;
      [k] + Listed(m - {k})
  }

  lemma {:induction false} ListedIsComplete<K(!new), V>(m: map<K, V>)
    ensures forall k | k in m :: k in Listed(m)
    decreases |m|
  {
    if |m| != 0 {
      var k0 :| k0 in m && Listed(m) == [k0] + Listed(m - {k0});
      ListedIsComplete(m - {k0});
      forall k | k in m ensures k in Listed(m) {
        if k != k0 { assert k in m - {k0}; }
      }
    }
  }

  /** The assumptions about what is outside can be met. */
  lemma SoundWorldsExist(direct: Direct) returns (w: World)
    ensures Sound(w) && w.direct == direct
  {
    var write := (id: Uuid) => seq(id, _ => 'a');
    forall a: Uuid, b: Uuid | write(a) == write(b) ensures a == b { assert |write(a)| == a && |write(b)| == b; }
    forall m: map<Key, Entry> ensures forall k | k in m :: k in Listed(m) { ListedIsComplete(m); }
    forall m: map<Ref, Material> ensures forall r | r in m :: r in Listed(m) { ListedIsComplete(m); }
    w := World(direct, {}, {}, (s, refs) => Some(map[]), n => 0, true, write, m => Listed(m), m => Listed(m));
  }

  predicate Objective(s: Skill) { s.Listening? || s.Reading? }

  // ---- Loading. ----

  lemma OneFurther<T>(s: seq<T>, i: nat)
    requires i < |s|
    ensures s[..i + 1] == s[..i] + [s[i]]
  {
  }

  method LoadGradingMaterials(w: World, skill: Skill, refs: seq<Ref>) returns (r: Option<map<Ref, Material>>)
    requires Sound(w)
    ensures r.Some? ==> Complete(w, skill, refs, r.value)
    ensures r.None? && BulkWorks(w, skill) ==> !Exist(w, skill, refs)
  {
    var loaded: map<Ref, Material> := map[];
    if skill in w.bulkSkills {
      var bulk := w.bulk(skill, refs);
      if bulk.None? { return None; }
      loaded := bulk.value;
    }
    for i := 0 to |refs|
      invariant Correct(w, skill, loaded) && forall r | r in refs[..i] :: r in loaded
    {
      OneFurther(refs, i);
      if refs[i] !in loaded {
        var material := w.direct(Key(skill, refs[i]));
        if material.None? { return None; }
        loaded := loaded[refs[i] := material.value];
      }
    }
    assert refs[..|refs|] == refs;
    return Some(loaded);
  }

  /** What the local cache still holds. */
  method FromLocal(w: World, cache: LocalCache, skill: Skill, refs: seq<Ref>) returns (loaded: map<Ref, Material>, missing: seq<Ref>)
    requires cache.Valid(w.direct)
    modifies cache
    ensures cache.Valid(w.direct) && Correct(w, skill, loaded)
    ensures forall r | r in refs :: r in loaded || r in missing
    ensures forall r | r in missing :: r in refs
  {
    loaded, missing := map[], [];
    for i := 0 to |refs|
      invariant cache.Valid(w.direct) && Correct(w, skill, loaded)
      invariant forall r | r in refs[..i] :: r in loaded || r in missing
      invariant forall r | r in missing :: r in refs
    {
      OneFurther(refs, i);
      ghost var before := cache.entries;
      var material := cache.Get(Key(skill, refs[i]), w.clock(i));
      if Key(skill, refs[i]) in before && material.None? { Smaller(before, Key(skill, refs[i])); }
      assert Key(skill, refs[i]) !in before ==> before - {Key(skill, refs[i])} == before;
      if material.Some? { loaded := loaded[refs[i] := material.value]; } else { missing := missing + [refs[i]]; }
    }
    assert refs[..|refs|] == refs;
  }

  method Remember(w: World, cache: LocalCache, key: Key, material: Material, at: nat)
    requires Sound(w) && cache.Valid(w.direct) && w.direct(key) == Some(material)
    modifies cache
    ensures cache.Valid(w.direct)
  {
    cache.Put(key, material, w.clock(at), w.visit(cache.entries));
  }

  /** What one shared entry is good for. */
  function Usable(data: map<string, Data>, name: string): Option<Material>
  {
    if name in data && data[name].Encoded? && data[name].material.examType != "" then Some(data[name].material) else None
  }

  /** What the shared cache holds of the rest; what cannot be read as a material is not used. */
  method FromShared(w: World, cache: LocalCache, shared: SharedCache, skill: Skill, missing: seq<Ref>)
    returns (loaded: map<Ref, Material>, unloaded: seq<Ref>)
    requires Sound(w) && CachesAgree(w, cache, shared)
    modifies cache
    ensures CachesAgree(w, cache, shared) && Correct(w, skill, loaded)
    ensures forall r | r in missing :: r in loaded || r in unloaded
    ensures forall r | r in unloaded :: r in missing
  {
    var keys := seq(|missing|, i requires 0 <= i < |missing| => SharedKey(w.write, Key(skill, missing[i])));
    var cached := shared.GetMany(keys, w.reachable);
    assert SharedAgrees(cached, w.direct, w.write);
    loaded, unloaded := map[], [];
    for i := 0 to |missing|
      invariant cache.Valid(w.direct) && Correct(w, skill, loaded)
      invariant forall r | r in missing[..i] :: r in loaded || r in unloaded
      invariant forall r | r in unloaded :: r in missing
    {
      OneFurther(missing, i);
      var key := Key(skill, missing[i]);
      var material := Usable(cached, SharedKey(w.write, key));
      if material.Some? {
        Remember(w, cache, key, material.value, i);
        loaded := loaded[missing[i] := material.value];
      } else {
        unloaded := unloaded + [missing[i]];
      }
    }
    assert missing[..|missing|] == missing;
  }

  ghost predicate Known(w: World, values: seq<(Key, Material)>)
  {
    forall j | 0 <= j < |values| :: w.direct(values[j].0) == Some(values[j].1)
  }

  function Named(write: Writing, values: seq<(Key, Material)>): seq<(string, Material)>
  {
    seq(|values|, j requires 0 <= j < |values| => (SharedKey(write, values[j].0), values[j].1))
  }

  lemma SharingKeeps(w: World, before: map<string, Data>, after: map<string, Data>, values: seq<(Key, Material)>)
    requires Faithful(w.write) && SharedAgrees(before, w.direct, w.write) && Known(w, values)
    requires var named := Named(w.write, values);
             forall k | k in after ::
               (k in before && after[k] == before[k]) || exists j :: 0 <= j < |named| && named[j].0 == k && after[k] == Encoded(named[j].1)
    ensures SharedAgrees(after, w.direct, w.write)
  {
    var named := Named(w.write, values);
    forall k: Key | SharedKey(w.write, k) in after && after[SharedKey(w.write, k)].Encoded?
      ensures w.direct(k) == Some(after[SharedKey(w.write, k)].material)
    {
      var name := SharedKey(w.write, k);
      if !(name in before && after[name] == before[name]) {
        var j :| 0 <= j < |named| && named[j].0 == name && after[name] == Encoded(named[j].1);
        SharedKeysDiffer(w.write, k, values[j].0);
      }
    }
  }

  method RememberAll(w: World, cache: LocalCache, skill: Skill, fetched: map<Ref, Material>) returns (values: seq<(Key, Material)>)
    requires Sound(w) && cache.Valid(w.direct) && Correct(w, skill, fetched)
    modifies cache
    ensures cache.Valid(w.direct) && Known(w, values)
  {
    var order := w.visitRefs(fetched);
    values := [];
    for i := 0 to |order|
      invariant cache.Valid(w.direct) && Known(w, values)
    {
      if order[i] in fetched {
        Remember(w, cache, Key(skill, order[i]), fetched[order[i]], i);
        values := values + [(Key(skill, order[i]), fetched[order[i]])];
      }
    }
  }

  /** Writes what was fetched into both caches. */
  method Share(w: World, cache: LocalCache, shared: SharedCache, skill: Skill, fetched: map<Ref, Material>)
    requires Sound(w) && CachesAgree(w, cache, shared) && Correct(w, skill, fetched)
    modifies cache, shared
    ensures CachesAgree(w, cache, shared)
  {
    var values := RememberAll(w, cache, skill, fetched);
    shared.PutMany(Named(w.write, values), w.reachable);
    SharingKeeps(w, old(shared.data), shared.data, values);
  }

  method GradingMaterialsOfType(w: World, cache: LocalCache, shared: SharedCache, skill: Skill, refs: seq<Ref>)
    returns (r: Option<map<Ref, Material>>)
    requires Sound(w) && CachesAgree(w, cache, shared)
    modifies cache, shared
    ensures CachesAgree(w, cache, shared)
    ensures r.Some? ==> Complete(w, skill, refs, r.value)
    ensures r.None? && skill in w.providers && BulkWorks(w, skill) ==> !Exist(w, skill, refs)
  {
    if skill !in w.providers { return None; }
    var loaded, missing := FromLocal(w, cache, skill, refs);
    var more, unloaded := FromShared(w, cache, shared, skill, missing);
    loaded := loaded + more;
    if |unloaded| > 0 {
      var fetched := LoadGradingMaterials(w, skill, unloaded);
      if fetched.None? { return None; }
      Share(w, cache, shared, skill, fetched.value);
      loaded := loaded + fetched.value;
    }
    return Some(loaded);
  }

  // ---- Many attempts. ----

  /** The distinct versions of one skill. */
  method RefsOf(attempts: seq<Summary>, skill: Skill) returns (refs: seq<Ref>)
    ensures forall a | a in attempts && a.skill == skill :: a.ref in refs
    ensures forall r | r in refs :: exists a :: a in attempts && a.skill == skill && a.ref == r
    ensures forall i, j | 0 <= i < j < |refs| :: refs[i] != refs[j]
  {
    refs := [];
    for i := 0 to |attempts|
      invariant forall a | a in attempts[..i] && a.skill == skill :: a.ref in refs
      invariant forall r | r in refs :: exists a :: a in attempts && a.skill == skill && a.ref == r
      invariant forall i, j | 0 <= i < j < |refs| :: refs[i] != refs[j]
    {
      OneFurther(attempts, i);
      if attempts[i].skill == skill && attempts[i].ref !in refs {
        assert attempts[i] in attempts;
        refs := refs + [attempts[i].ref];
      }
    }
    assert attempts[..|attempts|] == attempts;
  }

  ghost predicate DistinctIds(attempts: seq<Summary>)
  {
    forall a, b | a in attempts && b in attempts && a.id == b.id :: a == b
  }

  /** Exactly the objective attempts of these skills have a material: their own version's. */
  ghost predicate Filled(w: World, attempts: seq<Summary>, skills: set<Skill>, result: map<Uuid, Material>)
  {
    && (forall a | a in attempts && a.skill in skills :: a.id in result && w.direct(Key(a.skill, a.ref)) == Some(result[a.id]))
    && (forall id | id in result :: exists a :: a in attempts && a.skill in skills && a.id == id)
  }

  /** All attempts of `skills`, and the first `n` attempts of `skill`, have their material. */
  ghost predicate FilledUpTo(w: World, attempts: seq<Summary>, skills: set<Skill>, skill: Skill, n: nat, result: map<Uuid, Material>)
    requires n <= |attempts|
  {
    && (forall a | a in attempts && a.skill in skills :: a.id in result && w.direct(Key(a.skill, a.ref)) == Some(result[a.id]))
    && (forall a | a in attempts[..n] && a.skill == skill :: a.id in result && w.direct(Key(a.skill, a.ref)) == Some(result[a.id]))
    && (forall id | id in result :: exists a :: a in attempts && (a.skill in skills || a.skill == skill) && a.id == id)
  }

  lemma FillOne(w: World, attempts: seq<Summary>, skills: set<Skill>, skill: Skill, n: nat, result: map<Uuid, Material>, m: Material)
    requires n < |attempts| && FilledUpTo(w, attempts, skills, skill, n, result) && DistinctIds(attempts) && skill !in skills
    requires attempts[n].skill == skill ==> w.direct(Key(skill, attempts[n].ref)) == Some(m)
    ensures FilledUpTo(w, attempts, skills, skill, n + 1, if attempts[n].skill == skill then result[attempts[n].id := m] else result)
  {
    assert attempts[..n + 1] == attempts[..n] + [attempts[n]] && attempts[n] in attempts;
    if attempts[n].skill == skill {
      forall a | a in attempts && a.id == attempts[n].id ensures a == attempts[n] {}
      assert forall a | a in attempts[..n] :: a in attempts;
    }
  }

  method Fill(w: World, attempts: seq<Summary>, skill: Skill, ghost skills: set<Skill>, loaded: map<Ref, Material>, result0: map<Uuid, Material>)
    returns (result: map<Uuid, Material>)
    requires DistinctIds(attempts) && Filled(w, attempts, skills, result0) && skill !in skills && Correct(w, skill, loaded)
    requires forall a | a in attempts && a.skill == skill :: a.ref in loaded
    ensures Filled(w, attempts, skills + {skill}, result)
  {
    result := result0;
    for i := 0 to |attempts|
      invariant FilledUpTo(w, attempts, skills, skill, i, result)
    {
      assert attempts[i] in attempts;
      if attempts[i].skill == skill {
        FillOne(w, attempts, skills, skill, i, result, loaded[attempts[i].ref]);
        result := result[attempts[i].id := loaded[attempts[i].ref]];
      } else {
        FillOne(w, attempts, skills, skill, i, result, Material("", ""));
      }
    }
    assert attempts[..|attempts|] == attempts;
  }

  ghost predicate CanLoad(w: World, attempts: seq<Summary>)
  {
    forall a | a in attempts && Objective(a.skill) ::
      a.skill in w.providers && BulkWorks(w, a.skill) && w.direct(Key(a.skill, a.ref)).Some?
  }

  method AddSkill(w: World, cache: LocalCache, shared: SharedCache, attempts: seq<Summary>, skill: Skill,
                  ghost done: set<Skill>, result: map<Uuid, Material>)
    returns (r: Option<map<Uuid, Material>>)
    requires Sound(w) && CachesAgree(w, cache, shared) && DistinctIds(attempts)
    requires Filled(w, attempts, done, result) && skill !in done && Objective(skill)
    modifies cache, shared
    ensures CachesAgree(w, cache, shared)
    ensures r.Some? ==> Filled(w, attempts, done + {skill}, r.value)
    ensures r.None? ==> !CanLoad(w, attempts)
  {
    var refs := RefsOf(attempts, skill);
    if |refs| == 0 {
      var same := Fill(w, attempts, skill, done, map[], result);
      return Some(same);
    }
    assert refs[0] in refs;
    var loaded := GradingMaterialsOfType(w, cache, shared, skill, refs);
    if loaded.None? { return None; }
    var filled := Fill(w, attempts, skill, done, loaded.value, result);
    return Some(filled);
  }

  /**
   Every listening and reading attempt gets exactly what loading its version directly gives, and no other attempt gets
   anything, whatever the caches held, lost or could not be asked for. It fails only when a provider is missing, a bulk
   query fails, or a version cannot be loaded directly.
   */
  method GradingMaterials(w: World, cache: LocalCache, shared: SharedCache, attempts: seq<Summary>)
    returns (r: Option<map<Uuid, Material>>)
    requires Sound(w) && CachesAgree(w, cache, shared) && DistinctIds(attempts)
    modifies cache, shared
    ensures CachesAgree(w, cache, shared)
    ensures r.Some? ==> Filled(w, attempts, {Listening, Reading}, r.value)
    ensures r.None? ==> !CanLoad(w, attempts)
  {
    r := AddSkill(w, cache, shared, attempts, Listening, {}, map[]);
    if r.None? { return; }
    r := AddSkill(w, cache, shared, attempts, Reading, {} + {Listening}, r.value);
    assert {} + {Listening} + {Reading} == {Listening, Reading};
  }
}

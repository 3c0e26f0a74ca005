/**
 Grading materials through a local cache, a shared cache, a bulk loader and a loader of single versions.

 A material version is immutable, so loading it directly is a function of its key. Whether the shared cache answers,
 and what a bulk query leaves out, is the environment's choice.
 */
module GradingCache {
  import opened Common

  datatype Ref = Ref(material: Uuid, version: Uuid)
  datatype Key = Key(skill: Skill, ref: Ref)
  datatype Material = Material(examType: string, content: string)
  datatype Entry = Entry(material: Material, expires: int)

  type Direct = Key -> Option<Material>

  const TTL := 3_600_000_000_000
  const SIZE := 256

  ghost predicate Agrees(entries: map<Key, Entry>, direct: Direct)
  {
    forall k | k in entries :: direct(k) == Some(entries[k].material)
  }

  class LocalCache {
    var entries: map<Key, Entry>

    ghost predicate Valid(direct: Direct)
      reads this
    {
      Agrees(entries, direct) && |entries| <= SIZE
    }

    constructor ()
      ensures entries == map[]
    {
      entries := map[];
    }

    /** An entry counts up to and including its last instant; one that does not is dropped. */
    method Get(key: Key, now: int) returns (material: Option<Material>)
      modifies this
      ensures material == if key in old(entries) && now <= old(entries)[key].expires then Some(old(entries)[key].material) else None
      ensures entries == if material.Some? then old(entries) else old(entries) - {key}
    {
      if key !in entries {
        assert entries == entries - {key};
        return None;
      }
      if now > entries[key].expires {
        entries := entries - {key};
        return None;
      }
      return Some(entries[key].material);
    }

    method DropExpired(now: int, order: seq<Key>)
      requires forall k | k in entries :: k in order
      modifies this
      ensures forall k :: k in entries <==> k in old(entries) && now <= old(entries)[k].expires
      ensures forall k | k in entries :: entries[k] == old(entries)[k]
      ensures |entries| <= |old(entries)|
      ensures (exists k :: k in old(entries) && k !in entries) ==> |entries| < |old(entries)|
    {
      ghost var before := entries;
      for i := 0 to |order|
        invariant forall k :: k in entries <==> k in before && (k in order[..i] ==> now <= before[k].expires)
        invariant forall k | k in entries :: entries[k] == before[k]
        invariant |entries| <= |before| && ((exists k :: k in before && k !in entries) ==> |entries| < |before|)
      {
        assert order[..i + 1] == order[..i] + [order[i]];
        if order[i] in entries && now > entries[order[i]].expires {
          Smaller(entries, order[i]);
          entries := entries - {order[i]};
        }
      }
      assert order[..|order|] == order;
    }

    method DropOne(order: seq<Key>)
      requires (forall k | k in entries :: k in order) && |entries| > 0
      modifies this
      ensures exists k :: k in old(entries) && entries == old(entries) - {k}
      ensures |entries| == |old(entries)| - 1
    {
      for i := 0 to |order|
        invariant entries == old(entries) && forall k | k in order[..i] :: k !in entries
      {
        assert order[..i + 1] == order[..i] + [order[i]];
        if order[i] in entries {
          Smaller(entries, order[i]);
          entries := entries - {order[i]};
          return;
        }
      }
      assert false;
    }

    /** A full cache makes room: by everything that has expired, or else by one arbitrary entry. */
    method Evict(now: int, order: seq<Key>)
      requires (forall k | k in entries :: k in order) && |entries| <= SIZE
      modifies this
      ensures (forall k | k in entries :: k in old(entries) && entries[k] == old(entries)[k]) && |entries| < SIZE
      ensures (exists k :: k in old(entries) && now > old(entries)[k].expires) ==>
                forall k | k in old(entries) && now <= old(entries)[k].expires :: k in entries
      ensures (forall k | k in old(entries) :: now <= old(entries)[k].expires) ==> |entries| >= |old(entries)| - 1
    {
      DropExpired(now, order);
      if |entries| < SIZE {
        if forall k | k in old(entries) :: now <= old(entries)[k].expires { assert entries.Keys == old(entries).Keys; }
        return;
      }
      DropOne(order);
    }

    /** The entry is there, the cache is within its size, and nothing else is lost while there is room. */
    method Put(key: Key, material: Material, now: int, order: seq<Key>)
      requires (forall k | k in entries :: k in order) && |entries| <= SIZE
      modifies this
      ensures key in entries && entries[key] == Entry(material, now + TTL) && |entries| <= SIZE
      ensures forall k | k in entries && k != key :: k in old(entries) && entries[k] == old(entries)[k]
      ensures |old(entries)| < SIZE || key in old(entries) ==> entries == old(entries)[key := Entry(material, now + TTL)]
    {
      if key !in entries && |entries| >= SIZE { Evict(now, order); }
      Bigger(entries, key, Entry(material, now + TTL));
      entries := entries[key := Entry(material, now + TTL)];
    }
  }

  lemma Smaller(m: map<Key, Entry>, k: Key)
    requires k in m
    ensures |m - {k}| == |m| - 1
  {
    assert (m - {k}).Keys == m.Keys - {k};
    assert |(m - {k}).Keys| == |m - {k}| && |m.Keys| == |m|;
  }

  lemma Bigger(m: map<Key, Entry>, k: Key, e: Entry)
    ensures |m[k := e]| == |m| + if k in m then 0 else 1
  {
    assert m[k := e].Keys == m.Keys + {k};
    assert |m[k := e].Keys| == |m[k := e]| && |m.Keys| == |m|;
  }

  // ---- The shared cache. ----

  /** What is stored under a shared key: a material, or something that cannot be read as one. */
  datatype Data = Encoded(material: Material) | Garbage

  /** Different identifiers are written differently, and never with a colon. */
  type Writing = Uuid -> string
  ghost predicate Faithful(write: Writing)
  {
    (forall a: Uuid, b: Uuid | write(a) == write(b) :: a == b) && forall a: Uuid :: ':' !in write(a)
  }

  function SkillName(s: Skill): string
  {
    match s
    case Listening => "listening"
    case Reading => "reading"
    case Writing => "writing"
    case Speaking => "speaking"
  }

  function SharedKey(write: Writing, k: Key): string
  {
    "iac:grading:v1:" + SkillName(k.skill) + ":" + write(k.ref.material) + ":" + write(k.ref.version)
  }

  /** A text is cut at its last colon in one way only. */
  lemma Cut(a: string, b: string, c: string, d: string)
    requires a + ":" + b == c + ":" + d && ':' !in b && ':' !in d
    ensures a == c && b == d
  {
    var s := a + ":" + b;
    assert s[|a|] == ':' && (c + ":" + d)[|c|] == ':';
    forall i | |a| < i < |s| ensures s[i] != ':' { assert s[i] == b[i - |a| - 1]; }
    forall i | |c| < i < |s| ensures s[i] != ':' { assert s[i] == d[i - |c| - 1]; }
    assert a == s[..|a|] && c == s[..|c|] && b == s[|a| + 1..] && d == s[|c| + 1..];
  }

  lemma SkillNamesDiffer(a: Skill, b: Skill)
    requires SkillName(a) == SkillName(b)
    ensures a == b
  {
    assert SkillName(a)[0] == SkillName(b)[0];
  }

  /** Two versions never share a key. */
  lemma SharedKeysDiffer(write: Writing, a: Key, b: Key)
    requires Faithful(write) && SharedKey(write, a) == SharedKey(write, b)
    ensures a == b
  {
    var head := "iac:grading:v1:";
    var a1, b1 := head + SkillName(a.skill), head + SkillName(b.skill);
    Cut(a1 + ":" + write(a.ref.material), write(a.ref.version), b1 + ":" + write(b.ref.material), write(b.ref.version));
    Cut(a1, write(a.ref.material), b1, write(b.ref.material));
    assert SkillName(a.skill) == a1[|head|..] && SkillName(b.skill) == b1[|head|..];
    SkillNamesDiffer(a.skill, b.skill);
  }

  /** A usable entry is what loading it directly gives. */
  ghost predicate SharedAgrees(data: map<string, Data>, direct: Direct, write: Writing)
  {
    forall k: Key | SharedKey(write, k) in data && data[SharedKey(write, k)].Encoded? ::
      direct(k) == Some(data[SharedKey(write, k)].material)
  }

  class SharedCache {
    var data: map<string, Data>

    constructor ()
      ensures data == map[]
    {
      data := map[];
    }

    /** Nothing while the cache is unreachable. */
    method GetMany(keys: seq<string>, reachable: bool) returns (found: map<string, Data>)
      ensures forall k :: k in found <==> reachable && k in keys && k in data
      ensures forall k | k in found :: found[k] == data[k]
    {
      found := map[];
      if !reachable { return; }
      for i := 0 to |keys|
        invariant forall k :: k in found <==> k in keys[..i] && k in data
        invariant forall k | k in found :: found[k] == data[k]
      {
        assert keys[..i + 1] == keys[..i] + [keys[i]];
        if keys[i] in data { found := found[keys[i] := data[keys[i]]]; }
      }
      assert keys[..|keys|] == keys;
    }

    method PutMany(values: seq<(string, Material)>, reachable: bool)
      modifies this
      ensures !reachable ==> data == old(data)
      ensures reachable ==> forall k | k in data ::
                (k in old(data) && data[k] == old(data)[k]) || exists i :: 0 <= i < |values| && values[i].0 == k && data[k] == Encoded(values[i].1)
      ensures reachable ==> forall i | 0 <= i < |values| :: values[i].0 in data
    {
      if !reachable { return; }
      for i := 0 to |values|
        invariant forall k | k in data ::
                    (k in old(data) && data[k] == old(data)[k]) || exists j :: 0 <= j < i && values[j].0 == k && data[k] == Encoded(values[j].1)
        invariant forall j | 0 <= j < i :: values[j].0 in data
      {
        data := data[values[i].0 := Encoded(values[i].1)];
      }
    }
  }
}

/** Freezing is canonical: it forgets the order of a task's lists, and nothing changes when it is repeated. */
module Freezing {
  import opened Common
  import opened Text
  import opened Ordering
  import opened Envelope
  import opened Validation

  // ----- cleaning a path again changes nothing

  ghost predicate Plain(parts: seq<string>) {
    forall i | 0 <= i < |parts| :: parts[i] !in {"", "."}
  }

  lemma {:induction false} KeptFacts(parts: seq<string>)
    ensures Plain(Kept(parts))
    ensures forall p | p in Kept(parts) :: p in parts
    ensures Plain(parts) ==> Kept(parts) == parts
  {
    if parts != [] {
      KeptFacts(parts[1..]);
      assert parts == [parts[0]] + parts[1..];
      if Plain(parts) {
        assert Plain(parts[1..]) by {
          forall i | 0 <= i < |parts[1..]| ensures parts[1..][i] !in {"", "."} {
            assert parts[1..][i] == parts[i + 1];
          }
        }
      }
    }
  }

  lemma DotIsClean()
    ensures SafeRegionPath(".") && CleanPath(".") == "." && !HasSuffix(".", "/")
  {
    var dot := ".";
    assert dot[1..] == "" && Split("") == [""];
    assert Split(dot) == [[dot[0]] + ""] + [];
    assert [dot[0]] + "" == dot;
    assert Kept(["."]) == [];
  }

  lemma CleanStays(p: string)
    requires SafeRegionPath(p)
    ensures SafeRegionPath(CleanPath(p))
    ensures CleanPath(CleanPath(p)) == CleanPath(p)
    ensures !HasSuffix(CleanPath(p), "/")
  {
    var kept := Kept(Split(p));
    KeptFacts(Split(p));
    SplitSlashFree(p);
    if kept == [] {
      DotIsClean();
    } else {
      var q := Join(kept);
      assert SlashFree(kept);
      SplitJoin(kept);
      KeptFacts(kept);
      JoinEnds(kept);
      assert kept[0] in kept && kept[|kept| - 1] in kept;
      forall c | c in {'\\', '\0'} ensures c !in q {
        if c in q {
          JoinCharacters(kept, c);
        }
      }
      var last := kept[|kept| - 1];
      assert last[|last| - 1] in last;
    }
  }

  /** A normalized region is its own normal form. */
  lemma RegionStays(repositoryId: string, r: Region)
    requires NormalizeRegion(repositoryId, r).Some?
    ensures var n := NormalizeRegion(repositoryId, r).value;
      NormalizeRegion(repositoryId, n) == Some(n) && '\0' !in n.path
  {
    var kind := if r.kind == "" then "file" else r.kind;
    CleanStays(if kind == "tree" then TrimSuffix(r.path, "/") else r.path);
  }

  /** Regions that are their own normal forms, in any arrangement, normalize to themselves. */
  lemma {:induction false} RegionsStay(repositoryId: string, regions: seq<Region>)
    requires forall r | r in regions :: NormalizeRegion(repositoryId, r) == Some(r)
    ensures NormalizeRegions(repositoryId, regions) == Some(regions)
  {
    if regions != [] {
      RegionsStay(repositoryId, regions[1..]);
      assert regions == [regions[0]] + regions[1..];
    }
  }

  // ----- the order of the lists is forgotten

  lemma RegionsPermute(repositoryId: string, a: seq<Region>, b: seq<Region>)
    requires multiset(a) == multiset(b)
    ensures NormalizeRegions(repositoryId, a).Some? == NormalizeRegions(repositoryId, b).Some?
    ensures NormalizeRegions(repositoryId, a).Some? ==>
              multiset(NormalizeRegions(repositoryId, a).value) == multiset(NormalizeRegions(repositoryId, b).value)
  {
    RegionsAt(repositoryId, a);
    RegionsAt(repositoryId, b);
    SameMembers(a, b);
    if NormalizeRegions(repositoryId, a).Some? {
      var f := (r: Region) => NormalForm(repositoryId, r);
      RegionsMapped(repositoryId, a);
      RegionsMapped(repositoryId, b);
      MapPermutes(a, b, f);
      assert Map(a, f) == Map(a, r => NormalForm(repositoryId, r)) && Map(b, f) == Map(b, r => NormalForm(repositoryId, r));
    }
  }

  function NormalForm(repositoryId: string, r: Region): Region {
    if NormalizeRegion(repositoryId, r).Some? then NormalizeRegion(repositoryId, r).value else r
  }

  lemma RegionsMapped(repositoryId: string, regions: seq<Region>)
    requires NormalizeRegions(repositoryId, regions).Some?
    ensures NormalizeRegions(repositoryId, regions).value == Map(regions, r => NormalForm(repositoryId, r))
  {
    RegionsAt(repositoryId, regions);
  }

  function SeenKey(r: Region): seq<string> { [RegionSeen(r)] }

  lemma RegionsOkPermutes(repositoryId: string, a: seq<Region>, b: seq<Region>)
    requires multiset(a) == multiset(b) && RegionsOk(repositoryId, a)
    ensures RegionsOk(repositoryId, b)
  {
    SameMembers(a, b);
    assert DistinctKeys(a, SeenKey);
    DistinctPermutes(a, b, SeenKey);
  }

  lemma ArtifactsOkPermutes(a: seq<Artifact>, b: seq<Artifact>)
    requires multiset(a) == multiset(b) && ArtifactsOk(a)
    ensures ArtifactsOk(b)
  {
    SameMembers(a, b);
    assert DistinctKeys(a, ArtifactKey);
    DistinctPermutes(a, b, ArtifactKey);
  }

  lemma ChecksOkPermutes(a: seq<Envelope.Check>, b: seq<Envelope.Check>)
    requires multiset(a) == multiset(b) && ChecksOk(a)
    ensures ChecksOk(b)
  {
    SameMembers(a, b);
    assert DistinctKeys(a, CheckKey);
    DistinctPermutes(a, b, CheckKey);
  }

  ghost predicate SameUpToOrder(t: Task, u: Task) {
    && multiset(t.regions) == multiset(u.regions)
    && multiset(t.checks) == multiset(u.checks)
    && multiset(t.input.artifacts) == multiset(u.input.artifacts)
    && u == t.(regions := u.regions, checks := u.checks, input := t.input.(artifacts := u.input.artifacts))
  }

  lemma VerdictIgnoresOrder(t: Task, u: Task)
    requires SameUpToOrder(t, u)
    ensures ValidateTask(t) == ValidateTask(u)
  {
    SameMembers(t.regions, u.regions);
    SameMembers(t.checks, u.checks);
    if RegionsOk(t.repository.id, t.regions) { RegionsOkPermutes(t.repository.id, t.regions, u.regions); }
    if RegionsOk(t.repository.id, u.regions) { RegionsOkPermutes(t.repository.id, u.regions, t.regions); }
    if ArtifactsOk(t.input.artifacts) { ArtifactsOkPermutes(t.input.artifacts, u.input.artifacts); }
    if ArtifactsOk(u.input.artifacts) { ArtifactsOkPermutes(u.input.artifacts, t.input.artifacts); }
    if ChecksOk(t.checks) { ChecksOkPermutes(t.checks, u.checks); }
    if ChecksOk(u.checks) { ChecksOkPermutes(u.checks, t.checks); }
  }

  lemma {:induction false} PrefixBeforeNul(p: string, a: string, q: string, b: string)
    requires '\0' !in p && '\0' !in q && p + "\0" + a == q + "\0" + b
    ensures p == q && a == b
  {
    var s, t := p + "\0" + a, q + "\0" + b;
    assert s[0] == t[0] && s[1..] == t[1..];
    assert (p != "" ==> p[0] in p) && (q != "" ==> q[0] in q);
    if p != "" && q != "" {
      assert s[1..] == p[1..] + "\0" + a && t[1..] == q[1..] + "\0" + b;
      PrefixBeforeNul(p[1..], a, q[1..], b);
    }
  }

  lemma KeyDeterminesSeen(a: Region, b: Region)
    ensures RegionKey(a) == RegionKey(b) ==> RegionSeen(a) == RegionSeen(b)
  {
    assert RegionKey(a)[0] == a.path && RegionKey(a)[1] == a.kind && RegionKey(a)[2] == a.key;
    assert RegionKey(b)[0] == b.path && RegionKey(b)[1] == b.kind && RegionKey(b)[2] == b.key;
  }

  /** Regions with different (path, kind, key) are never taken for duplicates: the joined key is injective. */
  lemma SeenInjective(a: Region, b: Region)
    requires '\0' !in a.path && '\0' !in b.path
    requires a.kind in {"tree", "file", "symbol"} && b.kind in {"tree", "file", "symbol"}
    requires RegionSeen(a) == RegionSeen(b)
    ensures RegionKey(a) == RegionKey(b)
  {
    assert a.path + "\0" + a.kind + "\0" + a.key == a.path + "\0" + (a.kind + "\0" + a.key);
    assert b.path + "\0" + b.kind + "\0" + b.key == b.path + "\0" + (b.kind + "\0" + b.key);
    PrefixBeforeNul(a.path, a.kind + "\0" + a.key, b.path, b.kind + "\0" + b.key);
    PrefixBeforeNul(a.kind, a.key, b.kind, b.key);
  }

  /** The loop's map of regions seen finds a duplicate exactly when two regions agree in path, kind and key. */
  lemma SeenExact(repositoryId: string, regions: seq<Region>)
    requires forall r | r in regions :: RegionOk(repositoryId, r) && '\0' !in r.path
    ensures Distinct(RegionsSeen(regions)) <==> DistinctKeys(regions, RegionKey)
  {
    forall i, j | 0 <= i < j < |regions|
      ensures RegionsSeen(regions)[i] == RegionsSeen(regions)[j] <==> RegionKey(regions[i]) == RegionKey(regions[j])
    {
      KeyDeterminesSeen(regions[i], regions[j]);
      if RegionSeen(regions[i]) == RegionSeen(regions[j]) {
        SeenInjective(regions[i], regions[j]);
      }
    }
  }

  lemma NormalSorted(t: Task)
    requires NormalizeTask(t).Ok?
    ensures var n, regions := NormalizeTask(t).value, NormalizeRegions(t.repository.id, t.regions).value;
      && multiset(n.regions) == multiset(regions)
      && multiset(n.checks) == multiset(t.checks)
      && multiset(n.input.artifacts) == multiset(t.input.artifacts)
  {
    SortPermutes(NormalizeRegions(t.repository.id, t.regions).value, RegionKey);
    SortPermutes(t.checks, CheckKey);
    SortPermutes(t.input.artifacts, ArtifactKey);
  }

  lemma ValidListsAreKeyed(t: Task)
    requires ValidateTask(t).Pass?
    ensures DistinctKeys(t.regions, RegionKey)
    ensures DistinctKeys(t.input.artifacts, ArtifactKey)
    ensures DistinctKeys(t.checks, CheckKey)
  {
    forall i, j | 0 <= i < j < |t.regions| ensures RegionKey(t.regions[i]) != RegionKey(t.regions[j]) {
      assert RegionsSeen(t.regions)[i] != RegionsSeen(t.regions)[j];
      KeyDeterminesSeen(t.regions[i], t.regions[j]);
    }
    forall i, j | 0 <= i < j < |t.input.artifacts|
      ensures ArtifactKey(t.input.artifacts[i]) != ArtifactKey(t.input.artifacts[j])
    {
      assert PathsSeen(t.input.artifacts)[i] != PathsSeen(t.input.artifacts)[j];
      assert ArtifactKey(t.input.artifacts[i])[0] != ArtifactKey(t.input.artifacts[j])[0];
    }
    forall i, j | 0 <= i < j < |t.checks| ensures CheckKey(t.checks[i]) != CheckKey(t.checks[j]) {
      assert IdsSeen(t.checks)[i] != IdsSeen(t.checks)[j];
      assert CheckKey(t.checks[i])[0] != CheckKey(t.checks[j])[0];
    }
  }

  /** A sorted list with distinct keys is left as it is by another sort, and by a sort of any permutation of it. */
  lemma SortOfSorted<T>(s: seq<T>, key: T -> seq<string>)
    requires DistinctKeys(Sort(s, key), key)
    ensures Sort(Sort(s, key), key) == Sort(s, key)
  {
    SortPermutes(s, key);
    SortCanonical(Sort(s, key), s, key);
  }

  /**
   * Freezing gives every arrangement of a task's regions, checks and input artifacts the same answer:
   * the same admission with the same digest, or the same class of refusal.
   */
  lemma FreezeIgnoresOrder(t: Task, u: Task)
    requires SameUpToOrder(t, u)
    ensures Freeze(t) == Freeze(u)
  {
    RegionsPermute(t.repository.id, t.regions, u.regions);
    if NormalizeTask(t).Ok? {
      var n, m := NormalizeTask(t).value, NormalizeTask(u).value;
      NormalSorted(t);
      NormalSorted(u);
      assert SameUpToOrder(n, m);
      VerdictIgnoresOrder(n, m);
      if ValidateTask(n).Pass? {
        ValidListsAreKeyed(n);
        var rt := NormalizeRegions(t.repository.id, t.regions).value;
        var ru := NormalizeRegions(t.repository.id, u.regions).value;
        DistinctPermutes(n.regions, rt, RegionKey);
        SortCanonical(rt, ru, RegionKey);
        DistinctPermutes(n.input.artifacts, t.input.artifacts, ArtifactKey);
        SortCanonical(t.input.artifacts, u.input.artifacts, ArtifactKey);
        DistinctPermutes(n.checks, t.checks, CheckKey);
        SortCanonical(t.checks, u.checks, CheckKey);
      }
    }
  }

  /** Freezing a frozen task changes nothing, so a frozen admission always validates. */
  lemma FreezeIsIdempotent(t: Task)
    requires Freeze(t).Ok?
    ensures var a := Freeze(t).value;
      Freeze(a.task) == Ok(a) && ValidateAdmission(a).Pass?
  {
    var n := Freeze(t).value.task;
    ValidListsAreKeyed(n);
    NormalRegionsStay(t);
    SortOfSorted(NormalizeRegions(t.repository.id, t.regions).value, RegionKey);
    SortOfSorted(t.input.artifacts, ArtifactKey);
    SortOfSorted(t.checks, CheckKey);
    assert NormalizeTask(n) == Ok(n);
  }

  lemma NormalRegionsStay(t: Task)
    requires NormalizeTask(t).Ok?
    ensures NormalizeRegions(t.repository.id, NormalizeTask(t).value.regions) == Some(NormalizeTask(t).value.regions)
  {
    var n, regions := NormalizeTask(t).value, NormalizeRegions(t.repository.id, t.regions).value;
    NormalSorted(t);
    SameMembers(n.regions, regions);
    forall r | r in n.regions ensures NormalizeRegion(t.repository.id, r) == Some(r) {
      NormalRegionStays(t.repository.id, t.regions, r);
    }
    RegionsStay(t.repository.id, n.regions);
  }

  lemma NormalRegionStays(repositoryId: string, regions: seq<Region>, r: Region)
    requires NormalizeRegions(repositoryId, regions).Some? && r in NormalizeRegions(repositoryId, regions).value
    ensures NormalizeRegion(repositoryId, r) == Some(r)
  {
    RegionsAt(repositoryId, regions);
    var i :| 0 <= i < |regions| && NormalizeRegions(repositoryId, regions).value[i] == r;
    RegionStays(repositoryId, regions[i]);
  }

  /** Normalizing leaves the members the registry compares alone. */
  lemma FreezeKeepsIdentity(t: Task)
    requires Freeze(t).Ok?
    ensures var n := Freeze(t).value.task;
      n.identity == t.identity && n.executor == t.executor && n.repository == t.repository
    ensures ValidID(t.identity.executionId) && ValidID(t.identity.taskId)
  {
    assert ValidateTask(Freeze(t).value.task).Pass?;
  }
}

/** What a frozen task still says of the task it was frozen from. */
module FrozenTasks {
  import opened Common
  import opened Text
  import opened Ordering
  import opened Envelope
  import opened Validation
  import opened Freezing

  // ----- the path

  /** A part that names no directory or file of its own. */
  predicate Empty(part: string) { part in {"", "."} }

  lemma {:induction false} JoinSplit(s: string)
    ensures Join(Split(s)) == s
  {
    if s != "" {
      JoinSplit(s[1..]);
      var rest := Split(s[1..]);
      assert s == [s[0]] + s[1..];
      if s[0] == '/' {
        assert ([""] + rest)[1..] == rest;
        assert "" + "/" + Join(rest) == ['/'] + s[1..];
      } else {
        var parts := [[s[0]] + rest[0]] + rest[1..];
        assert parts[1..] == rest[1..];
        if |rest| > 1 {
          assert parts[0] + "/" + Join(rest[1..]) == [s[0]] + (rest[0] + "/" + Join(rest[1..]));
        }
      }
    }
  }

  lemma {:induction false} KeptSplits(a: seq<string>, b: seq<string>)
    ensures Kept(a + b) == Kept(a) + Kept(b)
    decreases a
  {
    if a == [] {
      assert a + b == b;
    } else {
      assert (a + b)[1..] == a[1..] + b;
      KeptSplits(a[1..], b);
    }
  }

  lemma {:induction false} KeptNone(parts: seq<string>)
    ensures Kept(parts) == [] <==> forall part | part in parts :: Empty(part)
  {
    if parts != [] {
      KeptNone(parts[1..]);
      assert parts[0] in parts;
      assert forall part | part in parts :: part == parts[0] || part in parts[1..];
      assert forall part | part in parts[1..] :: part in parts;
    }
  }

  /** A path whose every part names something is its own clean form. */
  lemma PlainIsClean(p: string)
    requires forall part | part in Split(p) :: !Empty(part)
    ensures CleanPath(p) == p
  {
    KeptFacts(Split(p));
    forall i | 0 <= i < |Split(p)| ensures !Empty(Split(p)[i]) {
      assert Split(p)[i] in Split(p);
    }
    JoinSplit(p);
  }

  function Without(parts: seq<string>, i: nat): seq<string>
    requires i < |parts|
  {
    parts[..i] + parts[i + 1..]
  }

  lemma KeptWithout(parts: seq<string>, i: nat)
    requires i < |parts| && Empty(parts[i])
    ensures Kept(Without(parts, i)) == Kept(parts)
  {
    var front, back := parts[..i], parts[i + 1..];
    assert parts[i..] == [parts[i]] + back && parts == front + parts[i..];
    assert Kept(parts[i..]) == Kept(back);
    KeptSplits(front, parts[i..]);
    KeptSplits(front, back);
  }

  /** Dropping a part that names nothing does not change the clean form. */
  lemma EmptyPartIsDropped(p: string, i: nat)
    requires 1 < |Split(p)| && i < |Split(p)| && Empty(Split(p)[i])
    ensures CleanPath(Join(Without(Split(p), i))) == CleanPath(p)
  {
    var parts := Split(p);
    SplitSlashFree(p);
    assert SlashFree(Without(parts, i));
    SplitJoin(Without(parts, i));
    KeptWithout(parts, i);
  }

  /** The clean form is "." exactly when no part names anything. */
  lemma CleanDotExactly(p: string)
    ensures CleanPath(p) == "." <==> forall part | part in Split(p) :: Empty(part)
  {
    var kept := Kept(Split(p));
    KeptNone(Split(p));
    if kept != [] {
      KeptFacts(Split(p));
      SplitSlashFree(p);
      assert SlashFree(kept);
      SplitJoin(kept);
      SplitDot();
      assert kept[0] !in {"", "."};
    }
  }

  lemma SplitDot()
    ensures Split(".") == ["."]
  {
    var dot := ".";
    assert dot[1..] == "" && Split("") == [""];
    assert [dot[0]] + "" == dot;
  }

  // ----- the region

  lemma {:induction false} SplitTrailing(q: string)
    ensures Split(q + "/") == Split(q) + [""]
  {
    if q == "" {
      assert q + "/" == "/" && "/"[1..] == "";
    } else {
      SplitTrailing(q[1..]);
      assert (q + "/")[1..] == q[1..] + "/" && (q + "/")[0] == q[0];
      var rest := Split(q[1..]);
      assert (rest + [""])[0] == rest[0] && (rest + [""])[1..] == rest[1..] + [""];
    }
  }

  /** The slash a tree may end with makes no difference. */
  lemma TrailingSlash(p: string)
    ensures SafeRegionPath(TrimSuffix(p, "/")) == SafeRegionPath(p)
    ensures CleanPath(TrimSuffix(p, "/")) == CleanPath(p)
  {
    if HasSuffix(p, "/") {
      var q := TrimSuffix(p, "/");
      assert p == q + "/";
      SplitTrailing(q);
      KeptSplits(Split(q), [""]);
      KeptNone([""]);
      assert Kept(Split(q)) + [] == Kept(Split(q));
      assert ".." in Split(p) <==> ".." in Split(q);
      assert q != "" ==> q[0] == p[0];
      assert forall c | c != '/' :: c in p <==> c in q;
    }
  }

  /**
   * A region has a normal form exactly when its path is safe. What it left out is filled in, its path is
   * cleaned, and everything else stands as it was given.
   */
  lemma RegionKeeps(repositoryId: string, r: Region)
    ensures NormalizeRegion(repositoryId, r).Some? <==> SafeRegionPath(r.path)
    ensures NormalizeRegion(repositoryId, r).Some? ==>
              var n := NormalizeRegion(repositoryId, r).value;
              && n.repository == (if r.repository == "" then repositoryId else r.repository)
              && n.kind == (if r.kind == "" then "file" else r.kind)
              && n.change == (if r.change == "" then "edit" else r.change)
              && n.path == CleanPath(r.path)
              && n.key == r.key && n.exclusive == r.exclusive && n.grade == r.grade && n.rule == r.rule
  {
    TrailingSlash(r.path);
  }

  // ----- the task

  /** The normal forms of a task's regions, in the order given. */
  ghost predicate NormalsOf(t: Task, normals: seq<Region>) {
    && |normals| == |t.regions|
    && forall i | 0 <= i < |normals| :: NormalizeRegion(t.repository.id, t.regions[i]) == Some(normals[i])
  }

  /**
   * A frozen task is the one given, except that its regions are their normal forms and that its regions,
   * artifacts and checks are in ascending order of their keys; its digest is of exactly that task.
   */
  lemma FreezeKeepsTask(t: Task) returns (normals: seq<Region>)
    requires Freeze(t).Ok?
    ensures NormalsOf(t, normals)
    ensures var a := Freeze(t).value; var n := a.task;
      && a.taskDigest == Sum(n)
      && SameUpToOrder(t.(regions := normals), n)
      && Ascending(n.regions, RegionKey) && Ascending(n.input.artifacts, ArtifactKey) && Ascending(n.checks, CheckKey)
  {
    var n := Freeze(t).value.task;
    normals := NormalizeRegions(t.repository.id, t.regions).value;
    RegionsAt(t.repository.id, t.regions);
    NormalSorted(t);
    ValidListsAreKeyed(n);
    SortedAscends(normals, RegionKey);
    SortedAscends(t.input.artifacts, ArtifactKey);
    SortedAscends(t.checks, CheckKey);
  }

  lemma SortedAscends<T>(s: seq<T>, key: T -> seq<string>)
    requires DistinctKeys(Sort(s, key), key)
    ensures Ascending(Sort(s, key), key)
  {
    SortPermutes(s, key);
    DistinctPermutes(Sort(s, key), s, key);
    SortAscends(s, key);
  }

  /**
   * Freezing refuses an unsafe region path, and otherwise accepts exactly the tasks that are valid with
   * their regions in normal form, in whatever order, refusing the others for the reason validation gives.
   */
  lemma FreezeExact(t: Task)
    ensures (exists r | r in t.regions :: !SafeRegionPath(r.path)) ==> Freeze(t) == Err(TaskInvalid)
    ensures forall normals | NormalsOf(t, normals) ::
              match ValidateTask(t.(regions := normals))
              case Pass => Freeze(t).Ok?
              case Fail(code) => Freeze(t) == Err(code)
  {
    RegionsAt(t.repository.id, t.regions);
    if r :| r in t.regions && !SafeRegionPath(r.path) {
      RegionKeeps(t.repository.id, r);
    }
    forall normals | NormalsOf(t, normals)
      ensures match ValidateTask(t.(regions := normals)) case Pass => Freeze(t).Ok? case Fail(code) => Freeze(t) == Err(code)
    {
      RegionsAre(t.repository.id, t.regions, normals);
      NormalSorted(t);
      VerdictIgnoresOrder(t.(regions := normals), NormalizeTask(t).value);
    }
  }
}

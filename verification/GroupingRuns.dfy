/** Applying a grouping plan as the program does it: step by step, on a copy of the registry, whose redirects and whose
    mapping of addresses are rewritten together after each merge and each fold. The run ends with the registry,
    mapping and links of `Grouped`, or with its error; the lemmas before the class say what one pass of each loop adds. */
module GroupingRuns {
  import opened Basics
  import Sorting
  import opened Registry
  import opened AddressMaps
  import Densify
  import opened Promotion
  import opened Merge
  import opened Fold
  import FoldAddresses
  import Gathering
  import opened Grouping
  import opened RegistryDocuments
  import GatheringRuns
  import FoldRuns

  // One merge, artifact by artifact.

  /** The target once `done` of the source's artifacts, by number, have been moved to it. */
  function Receiving(t: Project, s: Project, done: nat): Project
    requires done <= |s.artifacts|
  {
    if done == 0 then t
    else t.(artifacts := t.artifacts + Adopted(s.id, ByNumber(s.artifacts)[..done], Base(t)), next := Some(Base(t) + done))
  }

  lemma ReceivesNext(t: Project, s: Project, j: nat)
    requires j < |s.artifacts| && t.next.Some?
    ensures var before := Receiving(t, s, j);
            && before.next == Some(Base(t) + j) && before.id == t.id
            && Receiving(t, s, j + 1) == before.(next := Some(Base(t) + j + 1),
                 artifacts := before.artifacts + [Adopt(s.id, ByNumber(s.artifacts)[j], Base(t) + j)])
  {
    var xs := ByNumber(s.artifacts);
    assert xs[..j + 1] == xs[..j] + [xs[j]];
  }

  lemma YieldsNext(redirects: map<Address, Address>, t: string, base: nat, count: nat)
    ensures Yielded(YieldedRange(redirects, t, base, count), t, base + count) == YieldedRange(redirects, t, base, count + 1)
    ensures YieldedRange(redirects, t, base, 0) == redirects
  {
  }

  lemma {:induction false} LinksAppend(t: string, s: string, xs: seq<Artifact>, x: Artifact)
    ensures LinksOf(t, s, xs + [x]) == LinksOf(t, s, xs) + VersionLinks(t, s, x.versions)
  {
    if xs == [] {
      assert [x][1..] == [] && xs + [x] == [x];
    } else {
      assert (xs + [x])[1..] == xs[1..] + [x];
      LinksAppend(t, s, xs[1..], x);
    }
  }

  lemma NoLinksYet(t: string, s: string)
    ensures VersionLinks(t, s, []) == []
  {
  }

  lemma VersionNumber(x: Artifact, i: nat)
    requires WellVersioned(x) && i < |x.versions|
    ensures x.versions[i].number == i + 1
  {
  }

  lemma {:induction false} VersionLinksAppend(t: string, s: string, vs: seq<Version>, v: Version)
    ensures VersionLinks(t, s, vs + [v]) == VersionLinks(t, s, vs) + [Link(t, Prefixed(s, v.revision), s, v.revision)]
  {
    if vs == [] {
      assert [v][1..] == [] && vs + [v] == [v];
    } else {
      assert (vs + [v])[1..] == vs[1..] + [v];
      VersionLinksAppend(t, s, vs[1..], v);
    }
  }

  /** The moves of a merge once `done` artifacts of `s` have been moved. */
  ghost predicate MergedSoFar(m: map<Address, Address>, s: Project, t: string, base: nat, done: nat)
  {
    && (forall a :: a in m <==> a == ProjectAt(s.id) || (!a.ProjectAt? && Live([s], a) && PositionOf(ByNumber(s.artifacts), a.n) < done))
    && forall a :: a in m ==> m[a] == MergeTarget(s, t, base, a)
  }

  lemma NextNumberedMove(s: string, n: nat, t: string, number: nat, count: nat)
    ensures NumberedMoves(s, n, t, number, count + 1) ==
            NumberedMoves(s, n, t, number, count)[VersionAt(s, n, count + 1) := VersionAt(t, number, count + 1)]
    ensures NumberedMoves(s, n, t, number, 0) == map[ArtifactAt(s, n) := ArtifactAt(t, number)]
  {
  }

  lemma ByNumberPlace(s: Project, i: nat)
    requires WellNumbered(s) && i < |s.artifacts|
    ensures var xs := ByNumber(s.artifacts);
            && FindArtifact(s.artifacts, xs[i].number) == Some(xs[i]) && WellVersioned(xs[i])
            && PositionOf(xs, xs[i].number) == i
  {
    Sorting.SortByPermutes(NumberKey, s.artifacts);
    PermutedAt(s.artifacts, ByNumber(s.artifacts), i);
  }

  lemma AdoptedMoveOf(s: Project, t: string, base: nat, i: nat, a: Address)
    requires WellNumbered(s) && i < |s.artifacts|
    ensures var m := ArtifactMoves(s.id, ByNumber(s.artifacts)[i], t, base + i);
            && (a in m <==> !a.ProjectAt? && Live([s], a) && PositionOf(ByNumber(s.artifacts), a.n) == i)
            && (a in m ==> m[a] == MergeTarget(s, t, base, a))
  {
    hide WellNumbered, ByNumber, Live, MergeTarget;
    ByNumberPlace(s, i);
    if !a.ProjectAt? && a.p == s.id {
      LiveAlone(s, a);
      assert PositionOf(ByNumber(s.artifacts), a.n) == i <==> a.n == ByNumber(s.artifacts)[i].number;
      MergeTargetOf(s, t, base, a);
    } else if !a.ProjectAt? {
      LiveAlone(s, a);
    }
  }

  lemma MergeTargetOf(s: Project, t: string, base: nat, a: Address)
    requires !a.ProjectAt? && a.p == s.id
    ensures MergeTarget(s, t, base, a) == a.(p := t, n := base + PositionOf(ByNumber(s.artifacts), a.n))
  {
  }

  lemma MergesNext(m: map<Address, Address>, s: Project, t: string, base: nat, i: nat)
    requires WellNumbered(s) && i < |s.artifacts| && MergedSoFar(m, s, t, base, i)
    ensures MergedSoFar(m + ArtifactMoves(s.id, ByNumber(s.artifacts)[i], t, base + i), s, t, base, i + 1)
  {
    hide WellNumbered, ByNumber, Live, MergeTarget, PositionOf;
    var xs := ByNumber(s.artifacts);
    var more := ArtifactMoves(s.id, xs[i], t, base + i);
    forall a
      ensures a in more <==> !a.ProjectAt? && Live([s], a) && PositionOf(xs, a.n) == i
      ensures a in more ==> more[a] == MergeTarget(s, t, base, a)
    {
      AdoptedMoveOf(s, t, base, i, a);
    }
    hide ArtifactMoves;
  }

  lemma FoundWellNumbered(ps: seq<Project>, s: Project)
    requires WellFormed(ps) && FindProject(ps, s.id) == Some(s)
    ensures WellNumbered(s)
  {
  }

  lemma AllMerged(m: map<Address, Address>, ps: seq<Project>, s: Project, t: string, base: nat)
    requires WellNumbered(s) && FindProject(ps, s.id) == Some(s) && s.id != t
    requires MergedSoFar(m, s, t, base, |s.artifacts|)
    ensures m == MergeMoves(ps, s, t, base)
  {
    hide FindArtifact, ByNumber, PositionOf;
    var d := MergeMoves(ps, s, t, base);
    forall a ensures a in m <==> a in d
             ensures a in m ==> m[a] == d[a]
    {
      if a.p == s.id {
        if !a.ProjectAt? && Live([s], a) {
          var i := PlaceOf(s, a.n);
        }
      }
      assert Live(ps, a) ==> Follow(d, a) == MergeTarget(s, t, base, a);
    }
  }

  /** The draft when `done` artifacts of `s` have been moved to `t`, which has become `target`. */
  ghost predicate Halfway(d: Draft, now: Draft, t: Project, s: Project, done: nat, target: Project, moves: map<Address, Address>)
  {
    && done <= |s.artifacts| && target == Receiving(t, s, done)
    && now.projects == (if done == 0 then d.projects else ReplaceProject(d.projects, target))
    && now.redirects == YieldedRange(d.redirects, t.id, Base(t), done)
    && now.links == d.links + LinksOf(t.id, s.id, ByNumber(s.artifacts)[..done]) && now.mapping == d.mapping
    && MergedSoFar(moves, s, t.id, Base(t), done)
  }

  lemma NotBegun(d: Draft, t: Project, s: Project)
    ensures Halfway(d, d, t, s, 0, t, map[ProjectAt(s.id) := ProjectAt(t.id)])
  {
  }

  lemma HalfwayNumber(d: Draft, now: Draft, t: Project, s: Project, j: nat, target: Project, moves: map<Address, Address>)
    requires Halfway(d, now, t, s, j, target, moves)
    ensures target.id == t.id
    ensures t.next.Some? ==> target.next == Some(Base(t) + j)
    ensures t.next.None? && j == 0 ==> target.next.None?
  {
  }

  lemma HalfwayStep(d: Draft, now: Draft, t: Project, s: Project, j: nat, target: Project, moves: map<Address, Address>)
    requires Halfway(d, now, t, s, j, target, moves) && j < |s.artifacts| && t.next.Some? && WellNumbered(s)
    ensures var number, x := Base(t) + j, ByNumber(s.artifacts)[j];
            var counted := target.(next := Some(number + 1));
            var target' := counted.(artifacts := target.artifacts + [Adopt(s.id, x, number)]);
            Halfway(d, Draft(ReplaceProject(ReplaceProject(now.projects, counted), target'),
                             Yielded(now.redirects, t.id, number), now.mapping,
                             now.links + VersionLinks(t.id, s.id, x.versions)),
                    t, s, j + 1, target', moves + ArtifactMoves(s.id, x, t.id, number))
  {
    hide ReplaceProject, Receiving, MergedSoFar, WellNumbered, YieldedRange, Yielded, Adopt, ByNumber, VersionLinks,
      ArtifactMoves;
    var number, xs := Base(t) + j, ByNumber(s.artifacts);
    var counted := target.(next := Some(number + 1));
    var target' := counted.(artifacts := target.artifacts + [Adopt(s.id, xs[j], number)]);
    ReceivesNext(t, s, j);
    YieldsNext(d.redirects, t.id, Base(t), j);
    assert xs[..j + 1] == xs[..j] + [xs[j]];
    LinksAppend(t.id, s.id, xs[..j], xs[j]);
    MergesNext(moves, s, t.id, Base(t), j);
    LastReplacementWins(now.projects, counted, target');
    LastReplacementWins(d.projects, target, target');
  }

  lemma RemovedIsAbsorbed(ps: seq<Project>, t: Project, s: Project)
    requires DistinctIds(ps) && FindProject(ps, t.id) == Some(t) && s.id != t.id
    ensures var t' := Receiving(t, s, |s.artifacts|);
            && t' == Enlarged(t, s)
            && FilterMap((p: Project) => if p.id == s.id then None else Some(p),
                         if s.artifacts == [] then ps else ReplaceProject(ps, t')) == Absorbed(ps, Enlarged(t, s), s)
  {
    var t' := Receiving(t, s, |s.artifacts|);
    var xs := ByNumber(s.artifacts);
    assert xs[..|xs|] == xs;
    assert t' == Enlarged(t, s);
    var keep := (p: Project) => if p.id == s.id then None else Some(p);
    var both := (p: Project) => if p.id == s.id then None else Some(if p.id == t'.id then t' else p);
    if s.artifacts == [] {
      forall p | p in ps ensures keep(p) == both(p) {
        var i :| 0 <= i < |ps| && ps[i] == p;
      }
      FilterSame(keep, both, ps);
    } else {
      FilterTwice((p: Project) => Some(if p.id == t'.id then t' else p), keep, both, ps);
    }
  }

  /** A merge whose artifacts have all been moved is done once the source is removed and the moves recorded. */
  lemma MergeDone(d: Draft, now: Draft, t: Project, s: Project, target: Project, moves: map<Address, Address>)
    requires WellFormed(d.projects) && FindProject(d.projects, t.id) == Some(t) && FindProject(d.projects, s.id) == Some(s)
    requires s.id != t.id && Halfway(d, now, t, s, |s.artifacts|, target, moves)
    ensures var left := FilterMap((p: Project) => if p.id == s.id then None else Some(p), now.projects);
            && moves == MergeMoves(d.projects, s, t.id, Base(t))
            && Merged(d, t, s) == Draft(left, Followed(now.redirects, moves) + Moved(moves, {}),
                                        Followed(now.mapping, moves) + Moved(moves, {}), now.links)
  {
    RemovedIsAbsorbed(d.projects, t, s);
    AllMerged(moves, d.projects, s, t.id, Base(t));
    FollowedIsCarried(now.redirects, moves);
    FollowedIsCarried(now.mapping, moves);
    var xs := ByNumber(s.artifacts);
    assert xs[..|xs|] == xs;
  }

  lemma FollowedIsCarried(m: map<Address, Address>, moves: map<Address, Address>)
    requires forall a :: a in moves ==> moves[a] != a
    ensures Followed(m, moves) + Moved(moves, {}) == Carried(m, moves)
  {
    assert Moved(moves, {}) == moves;
  }

  /** A renamed revision of `x` is one the target already had. */
  predicate Clashes(sid: string, x: Artifact, taken: set<string>)
  {
    exists v :: v in x.versions && Prefixed(sid, v.revision) in taken
  }

  ghost predicate Clear(s: Project, taken: set<string>, done: nat)
  {
    forall i :: 0 <= i < done && i < |s.artifacts| ==> !Clashes(s.id, ByNumber(s.artifacts)[i], taken)
  }

  lemma ClearIsNoCollision(t: Project, s: Project)
    requires WellNumbered(s)
    ensures Clear(s, Revisions(t), |s.artifacts|) <==> !Collides(t, s)
  {
    ByNumberKeeps(s.artifacts);
    var xs := ByNumber(s.artifacts);
    if Collides(t, s) {
      var x, v :| x in s.artifacts && v in x.versions && Prefixed(s.id, v.revision) in Revisions(t);
      assert x in xs;
      var i :| 0 <= i < |xs| && xs[i] == x;
      assert Clashes(s.id, xs[i], Revisions(t));
    } else {
      forall i | 0 <= i < |xs| ensures !Clashes(s.id, xs[i], Revisions(t)) {
        assert xs[i] in s.artifacts;
      }
    }
  }

  lemma TargetOpened(ps: seq<Project>, spec: Spec)
    requires WellFormed(ps)
    ensures WellFormed(OpenTarget(ps, spec)) && FindProject(OpenTarget(ps, spec), spec.id).Some?
  {
    OpenTargetShape(ps, spec);
  }

  lemma NotItsOwnSource(specs: seq<Spec>, i: nat, j: nat)
    requires SourcesAreNotTargets(specs) && i < |specs| && j < |specs[i].merge|
    ensures specs[i].merge[j] != specs[i].id
  {
    assert specs[i] in specs && specs[i].merge[j] in specs[i].merge;
    assert specs[i].merge[j] in Sources(specs);
  }

  lemma SourceMerged(d: Draft, tid: string, sid: string)
    requires WellFormed(d.projects) && FindProject(d.projects, tid).Some? && tid != sid
    ensures MergeSource(d, tid, sid).Ok? ==>
              var d' := MergeSource(d, tid, sid).value; WellFormed(d'.projects) && FindProject(d'.projects, tid).Some?
  {
    if FindProject(d.projects, sid).Some? && MergeSource(d, tid, sid).Ok? {
      var t, s := FindProject(d.projects, tid).value, FindProject(d.projects, sid).value;
      AbsorbedWellFormed(d.projects, t, s);
      AbsorbedFindsProject(d.projects, Enlarged(t, s), s, tid);
    }
  }

  class GroupingRun {
    const updated: RegistryDocument
    var mapping: map<Address, Address>
    var links: seq<Link>

    constructor (r: Registry)
      ensures fresh(updated)
      ensures View() == Draft(r.projects, r.redirects, map[], [])
    {
      updated := new RegistryDocument(r);
      mapping, links := map[], [];
    }

    function View(): Draft
      reads this, updated
    {
      Draft(updated.projects, updated.redirects, mapping, links)
    }

    /** Every entry's target follows the moves. */
    static method Redirect(m: map<Address, Address>, moves: map<Address, Address>) returns (r: map<Address, Address>)
      ensures r == Followed(m, moves)
    {
      r := m;
      var keys := m.Keys;
      while keys != {}
        invariant keys <= m.Keys && r.Keys == m.Keys
        invariant forall a :: a in m ==> r[a] == if a in keys then m[a] else Follow(moves, m[a])
        decreases |keys|
      {
        var a :| a in keys;
        r := r[a := Follow(moves, m[a])];
        keys := keys - {a};
      }
    }

    /** Record moves: older entries follow them, and every address that moved gets an entry. */
    method Move(moves: map<Address, Address>, live: set<Address>)
      modifies this`mapping, updated`redirects
      ensures mapping == Followed(old(mapping), moves) + Moved(moves, {})
      ensures updated.redirects == Followed(old(updated.redirects), moves) + Moved(moves, live)
    {
      mapping := Redirect(mapping, moves);
      updated.redirects := Redirect(updated.redirects, moves);
      mapping := mapping + Moved(moves, {});
      updated.redirects := updated.redirects + Moved(moves, live);
    }

    /** Rename an artifact's revisions for its new project; fails on a revision name the project had. */
    method AdoptVersions(tid: string, sid: string, x: Artifact, number: nat, taken: set<string>)
      returns (versions: Option<seq<Version>>, moves: map<Address, Address>)
      requires WellVersioned(x)
      modifies this`links
      ensures versions.None? <==> Clashes(sid, x, taken)
      ensures versions.Some? ==>
                && versions.value == PrefixedVersions(sid, x.versions)
                && moves == ArtifactMoves(sid, x, tid, number)
                && links == old(links) + VersionLinks(tid, sid, x.versions)
    {
      hide NumberedMoves, Prefixed, WellVersioned, VersionLinks, PrefixedVersions;
      NextNumberedMove(sid, x.number, tid, number, 0);
      NoLinksYet(tid, sid);
      var renamed: seq<Version> := [];
      moves := map[ArtifactAt(sid, x.number) := ArtifactAt(tid, number)];
      for i := 0 to |x.versions|
        invariant forall v :: v in x.versions[..i] ==> Prefixed(sid, v.revision) !in taken
        invariant renamed == PrefixedVersions(sid, x.versions)[..i]
        invariant moves == NumberedMoves(sid, x.number, tid, number, i)
        invariant links == old(links) + VersionLinks(tid, sid, x.versions[..i])
      {
        var version := x.versions[i];
        var revision := Prefixed(sid, version.revision);
        VersionNumber(x, i);
        if revision in taken {
          return None, moves;
        }
        assert x.versions[..i + 1] == x.versions[..i] + [version];
        VersionLinksAppend(tid, sid, x.versions[..i], version);
        NextNumberedMove(sid, x.number, tid, number, i);
        links := links + [Link(tid, revision, sid, version.revision)];
        moves := moves[VersionAt(sid, x.number, version.number) := VersionAt(tid, number, version.number)];
        renamed := renamed + [version.(revision := revision)];
      }
      assert x.versions[..|x.versions|] == x.versions;
      versions := Some(renamed);
    }

    /** Move the source's artifacts, by number, to the target. */
    method MoveArtifacts(t: Project, s: Project) returns (failure: Option<PlanError>, target: Project, moves: map<Address, Address>)
      requires WellNumbered(s)
      modifies this`links, updated
      ensures failure == if s.artifacts != [] && t.next.None? then Some(PlanError.NoNextNumber)
                         else if Collides(t, s) then Some(RevisionCollision) else None
      ensures failure == None ==> Halfway(old(View()), View(), t, s, |s.artifacts|, target, moves)
    {
      hide WellNumbered, WellVersioned, Halfway, ReplaceProject, Yielded, ByNumber, ArtifactMoves, VersionLinks,
        Collides, Clashes, Revisions;
      ghost var d := View();
      target, moves := t, map[ProjectAt(s.id) := ProjectAt(t.id)];
      var taken, xs := Revisions(t), ByNumber(s.artifacts);
      NotBegun(d, t, s);
      ClearIsNoCollision(t, s);
      for j := 0 to |xs|
        invariant Halfway(d, View(), t, s, j, target, moves) && (j > 0 ==> t.next.Some?)
        invariant Clear(s, taken, j)
      {
        ByNumberPlace(s, j);
        HalfwayNumber(d, View(), t, s, j, target, moves);
        ghost var now := View();
        var counted := updated.Allocate(target);
        if counted.None? {
          return Some(PlanError.NoNextNumber), target, moves;
        }
        var versions, more := AdoptVersions(t.id, s.id, xs[j], target.next.value, taken);
        if versions.None? {
          return Some(RevisionCollision), target, moves;
        }
        HalfwayStep(d, now, t, s, j, target, moves);
        moves := moves + more;
        target := counted.value.(artifacts := target.artifacts + [xs[j].(number := target.next.value, versions := versions.value)]);
        updated.projects := ReplaceProject(updated.projects, target);
      }
      failure := None;
    }

    /** Merge one project into another; a source that is not there is skipped. */
    method MergeProject(tid: string, sid: string) returns (failure: Option<PlanError>)
      requires WellFormed(updated.projects) && tid != sid && FindProject(updated.projects, tid).Some?
      modifies this, updated
      ensures match MergeSource(old(View()), tid, sid)
              case Ok(d) => failure == None && View() == d
              case Err(e) => failure == Some(e)
    {
      hide WellFormed, WellNumbered, Halfway, Merged, Collides, Followed, Moved, FilterMap;
      var found := FindProject(updated.projects, sid);
      if found.None? {
        return None;
      }
      var s, t := found.value, FindProject(updated.projects, tid).value;
      ghost var d := View();
      FoundWellNumbered(d.projects, s);
      var target, moves;
      failure, target, moves := MoveArtifacts(t, s);
      if failure == None {
        MergeDone(d, View(), t, s, target, moves);
        updated.projects := FilterMap((p: Project) => if p.id == sid then None else Some(p), updated.projects);
        Move(moves, {});
      }
    }

    /** Open a merge's target, under the name the plan gives. */
    method OpenProject(spec: Spec)
      requires WellFormed(updated.projects)
      modifies updated`projects
      ensures updated.projects == OpenTarget(old(updated.projects), spec)
    {
      var found := FindProject(updated.projects, spec.id);
      var target: Project;
      if found.None? {
        target := Project(spec.id, if spec.name.Some? then spec.name.value else spec.id, Some(1), []);
        updated.projects := updated.projects + [target];
      } else if spec.name.Some? {
        updated.projects := ReplaceProject(updated.projects, found.value.(name := spec.name.value));
      }
    }

    /** The merges of a plan, in order. */
    method MergeAll(specs: seq<Spec>) returns (failure: Option<PlanError>)
      requires WellFormed(updated.projects) && SourcesAreNotTargets(specs)
      modifies this, updated
      ensures match MergeSpecs(old(View()), specs)
              case Ok(d) => failure == None && View() == d && WellFormed(d.projects)
              case Err(e) => failure == Some(e)
    {
      hide WellFormed, OpenTarget, MergeSource;
      for i := 0 to |specs|
        invariant WellFormed(updated.projects)
        invariant MergeSpecs(View(), specs[i..]) == MergeSpecs(old(View()), specs)
      {
        var spec := specs[i];
        assert specs[i..][0] == spec && specs[i..][1..] == specs[i + 1..];
        TargetOpened(updated.projects, spec);
        OpenProject(spec);
        ghost var d := View();
        for j := 0 to |spec.merge|
          invariant WellFormed(updated.projects) && FindProject(updated.projects, spec.id).Some?
          invariant MergeSources(View(), spec.id, spec.merge[j..]) == MergeSources(d, spec.id, spec.merge)
        {
          assert spec.merge[j..][0] == spec.merge[j] && spec.merge[j..][1..] == spec.merge[j + 1..];
          NotItsOwnSource(specs, i, j);
          SourceMerged(View(), spec.id, spec.merge[j]);
          failure := MergeProject(spec.id, spec.merge[j]);
          if failure != None {
            return;
          }
        }
      }
      failure := None;
    }
  }

  /** Moves to the same address change nothing. */
  lemma IdleMoves(m: map<Address, Address>, moves: map<Address, Address>)
    ensures Followed(m, moves) == Followed(m, Moved(moves, {}))
  {
  }

  /** Recording a finished run of folds gives the folded registry and its mapping. */
  lemma FoldsRecorded(d: Draft, fs: seq<Fold>, moves: map<Address, Address>, live: set<Address>)
    requires Moved(moves, {}) == FoldMoves(d.projects, fs)
    requires Moved(moves, live) == map a | a in FoldMoves(d.projects, fs) && !Live(Folded(d.projects, fs), a)
                                   :: FoldMoves(d.projects, fs)[a]
    ensures FoldedRegistry(d, fs) == Registry(Folded(d.projects, fs), Followed(d.redirects, moves) + Moved(moves, live))
    ensures Carried(d.mapping, FoldMoves(d.projects, fs)) == Followed(d.mapping, moves) + Moved(moves, {})
  {
    hide Folded, FoldMoves, Moved, Followed, Live;
    IdleMoves(d.redirects, moves);
    IdleMoves(d.mapping, moves);
  }

  /** Apply a grouping plan to a copy of the registry. */
  method PlanGrouping(r: Registry, plan: Plan) returns (outcome: Result<Outcome, PlanError>)
    requires Plannable(r, plan)
    ensures outcome == Grouped(r, plan)
  {
    hide WellFormed, MergeSpecs, Folds, FirstError, Folded, FoldMoves, Densify.DenseMoves, Densify.DenseProjects,
      FinalMapping, FinalRedirects, FoldsOk, Foldable, Gathering.DistinctFoldTitles, Moved, Followed, Live,
      Densify.Densified, FoldedRegistry, Carried;
    var run := new GroupingRun(r);
    var failure := run.MergeAll(plan.specs);
    if failure.Some? {
      return Err(failure.value);
    }
    ghost var d := run.View();
    var gathered := GatheringRuns.GatherFolds(run.updated.View(), plan.groups);
    if gathered.Err? {
      return Err(gathered.error);
    }
    var folds := gathered.value;
    Gathering.FoldsAreOk(run.updated.View(), plan.groups);
    var folding := new FoldRuns.FoldRun(run.updated);
    failure := folding.ApplyFolds(folds);
    if failure.Some? {
      return Err(failure.value);
    }
    FoldsRecorded(d, folds, folding.moves, folding.live);
    run.Move(folding.moves, folding.live);
    assert run.updated.View() == FoldedRegistry(d, folds);
    Gathering.AcceptedIsFoldable(d.projects, folds);
    FoldAddresses.FoldedWellFormed(d.projects, folds);
    var moves, dropped := run.updated.Densify();
    var mapping := FinalMapping(r, run.mapping, moves);
    run.updated.redirects := FinalRedirects(r, run.updated.projects, run.updated.redirects, mapping);
    outcome := Ok(Outcome(run.updated.View(), mapping, run.links));
  }
}

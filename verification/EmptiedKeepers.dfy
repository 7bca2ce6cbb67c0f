/** A registry and a plan after which an artifact's address leads to none of the versions that the artifact had: its group
    takes it and keeps its number, and another group lists all its versions. */
module EmptiedKeepers {
  import opened Basics
  import Sorting
  import opened Registry
  import opened Resolution
  import opened Merge
  import opened Fold
  import FoldAddresses
  import Gathering
  import opened Grouping
  import opened Reapplication

  // Group A folds artifact 3 into artifact 1, whose only version group B lists.

  const FOLDING := Group("p", "A", [Number(1), Number(3)])

  const TAKING := Group("p", "B", [Number(2), Named(VersionAt("p", 1, 1))])

  const EMPTYING_PLAN := Plan([], [FOLDING, TAKING])

  const EMPTYING_FOLDS :=
    [Fold("p", "A", [ExampleArtifact(1), ExampleArtifact(3)], []),
     Fold("p", "B", [ExampleArtifact(2)], [Pick(ExampleArtifact(1), 1)])]

  lemma ExampleResolves(n: nat)
    requires 1 <= n <= 3
    ensures var r := ExampleRegistry();
            && Lookup(r.projects, "p", n) == Some(ExampleArtifact(n))
            && Resolve(r, ArtifactAt("p", n)) == Ok(Place(r.projects[0], ExampleArtifact(n), 0))
            && Resolve(r, VersionAt("p", n, 1)) == Ok(Place(r.projects[0], ExampleArtifact(n), 1))
  {
    var r := ExampleRegistry();
    ExampleSound();
    hide ResolveWithin, Sound;
    assert FindProject(r.projects, "p") == Some(r.projects[0]);
    assert r.projects[0].artifacts[1..][0] == ExampleArtifact(2) && r.projects[0].artifacts[1..][1..][0] == ExampleArtifact(3);
    assert Lookup(r.projects, "p", n) == Some(ExampleArtifact(n));
    LiveResolvesToItself(r, ArtifactAt("p", n), |r.redirects| + 1);
    LiveResolvesToItself(r, VersionAt("p", n, 1), |r.redirects| + 1);
  }

  lemma InOrder(x: Artifact, y: Artifact)
    requires x.number < y.number
    ensures ByNumber([x]) == [x] && ByNumber([x, y]) == [x, y]
  {
    Sorting.SortBySorted(NumberKey, [x, y]);
    Sorting.SortBySorted(NumberKey, [x]);
  }

  lemma FoldingGathers(r: Registry, p: Project, x: Artifact, z: Artifact)
    requires Resolve(r, ArtifactAt("p", 1)) == Ok(Place(p, x, 0)) && Resolve(r, ArtifactAt("p", 3)) == Ok(Place(p, z, 0))
    requires p.id == "p" && x.number == 1 && z.number == 3
    ensures var s := GatherRefs(r, FOLDING, Gathered(map[], map[], [], []), FOLDING.refs);
            && s.Ok? && s.value.members == [x, z] && s.value.picked == [] && s.value.picks == map[]
            && s.value.claimed.Keys == {ArtifactAt("p", 1), ArtifactAt("p", 3)}
  {
    hide Resolve;
    var s0 := Gathered(map[], map[], [], []);
    var s1 := GatherRef(r, FOLDING, s0, Number(1)).value;
    var s2 := GatherRef(r, FOLDING, s1, Number(3)).value;
    assert GatherRefs(r, FOLDING, s2, []) == Ok(s2);
    assert FOLDING.refs[1..] == [Number(3)];
    assert GatherRefs(r, FOLDING, s1, [Number(3)]) == Ok(s2);
  }

  lemma TakingGathers(r: Registry, p: Project, x: Artifact, y: Artifact, s: Gathered)
    requires Resolve(r, ArtifactAt("p", 2)) == Ok(Place(p, y, 0))
    requires Resolve(r, VersionAt("p", 1, 1)) == Ok(Place(p, x, 1))
    requires p.id == "p" && x.number == 1 && y.number == 2 && s.members == [] && s.picked == [] && s.picks == map[]
    requires ArtifactAt("p", 2) !in s.claimed
    ensures var s' := GatherRefs(r, TAKING, s, TAKING.refs);
            s'.Ok? && s'.value.members == [y] && s'.value.picked == [Pick(x, 1)]
  {
    hide Resolve;
    var s1 := GatherRef(r, TAKING, s, Number(2)).value;
    var s2 := GatherRef(r, TAKING, s1, Named(VersionAt("p", 1, 1))).value;
    assert GatherRefs(r, TAKING, s2, []) == Ok(s2);
    assert TAKING.refs[1..] == [Named(VersionAt("p", 1, 1))];
    assert GatherRefs(r, TAKING, s1, [Named(VersionAt("p", 1, 1))]) == Ok(s2);
  }

  lemma TwoGroups(r: Registry, s1: Gathered, s2: Gathered)
    requires FindProject(r.projects, "p").Some?
    requires GatherRefs(r, FOLDING, Gathered(map[], map[], [], []), FOLDING.refs) == Ok(s1)
    requires GatherRefs(r, TAKING, s1.(members := [], picked := []), TAKING.refs) == Ok(s2)
    requires s1.members != [] && s1.picked == [] && s2.members != []
    ensures Folds(r, EMPTYING_PLAN.groups) ==
            Ok([Fold("p", "A", ByNumber(s1.members), []), Fold("p", "B", ByNumber(s2.members), s2.picked)])
  {
    hide GatherRefs, ByNumber, FindProject;
    var first := [Fold("p", "A", ByNumber(s1.members), [])];
    var both := first + [Fold("p", "B", ByNumber(s2.members), s2.picked)];
    assert GatherGroups(r, s2, both, []) == Ok(both);
    assert GatherGroups(r, s1, first, [TAKING]) == Ok(both) by {
      assert [TAKING][1..] == [];
    }
    var s0 := Gathered(map[], map[], [], []);
    assert s0.(members := [], picked := []) == s0 && [FOLDING, TAKING][1..] == [TAKING];
    assert [] + first == first;
    assert GatherGroups(r, s0, [], [FOLDING, TAKING]) == Ok(both);
    assert both == [first[0], Fold("p", "B", ByNumber(s2.members), s2.picked)];
  }

  lemma EmptyingFolds()
    ensures Folds(ExampleRegistry(), EMPTYING_PLAN.groups) == Ok(EMPTYING_FOLDS)
  {
    hide Resolve, GatherRefs, Folds, ByNumber, FindProject, Lookup;
    var r := ExampleRegistry();
    var p, x, y, z := r.projects[0], ExampleArtifact(1), ExampleArtifact(2), ExampleArtifact(3);
    ExampleResolves(1);
    ExampleResolves(2);
    ExampleResolves(3);
    FoldingGathers(r, p, x, z);
    var s1 := GatherRefs(r, FOLDING, Gathered(map[], map[], [], []), FOLDING.refs).value;
    TakingGathers(r, p, x, y, s1.(members := [], picked := []));
    var s2 := GatherRefs(r, TAKING, s1.(members := [], picked := []), TAKING.refs).value;
    TwoGroups(r, s1, s2);
    InOrder(x, z);
    InOrder(y, z);
  }

  lemma EmptyingIsOk()
    ensures FoldsOk(ExampleRegistry().projects, EMPTYING_FOLDS) && WellFormed(ExampleRegistry().projects)
  {
    hide Folds, FoldsOk;
    ExampleSound();
    EmptyingFolds();
    Gathering.FoldsAreOk(ExampleRegistry(), EMPTYING_PLAN.groups);
  }

  lemma EmptyingClaims()
    ensures Claims(EMPTYING_FOLDS[0], "p", 1) && Claims(EMPTYING_FOLDS[0], "p", 3) && Claims(EMPTYING_FOLDS[1], "p", 2)
    ensures Picks(EMPTYING_FOLDS[1], "p", 1, 1)
    ensures PickingFold(EMPTYING_FOLDS, "p", 2, 1).None? && PickingFold(EMPTYING_FOLDS, "p", 3, 1).None?
  {
    var x, z := ExampleArtifact(1), ExampleArtifact(3);
    assert [x, z][0] == x && [x, z][1] == z && [x, z][1..] == [z];
    assert Pick(x, 1) in EMPTYING_FOLDS[1].picked;
  }

  /** Group A is left with the version of artifact 3, and group B with that of artifact 2. */
  lemma EmptyingLeavesSome(f: Fold, n: nat)
    requires (f == EMPTYING_FOLDS[0] && n == 3) || (f == EMPTYING_FOLDS[1] && n == 2)
    ensures Ordered(EMPTYING_FOLDS, f) != []
  {
    hide FoldsOk, FoldOk, WellFormed, Ordered, Claims, Picks, PickingFold, Lookup;
    EmptyingIsOk();
    EmptyingClaims();
    ExampleResolves(n);
    FoldsOkMember(ExampleRegistry().projects, EMPTYING_FOLDS, f);
    OrderedRow(ExampleRegistry().projects, EMPTYING_FOLDS, f, Row(n, 1, ExampleArtifact(n).versions[0]));
  }

  lemma FoldsOkMember(ps: seq<Project>, fs: seq<Fold>, f: Fold)
    requires FoldsOk(ps, fs) && f in fs
    ensures FoldOk(ps, f)
  {
  }

  lemma EmptyingAccepted()
    ensures FirstError(EMPTYING_FOLDS, EMPTYING_FOLDS).None?
  {
    hide Ordered, TitleOnly;
    var fs := EMPTYING_FOLDS;
    EmptyingLeavesSome(fs[0], 3);
    EmptyingLeavesSome(fs[1], 2);
    assert FoldError(fs, fs[0]).None? && FoldError(fs, fs[1]).None?;
    assert fs[1..][0] == fs[1] && fs[1..][1..] == [];
    assert FirstError(fs, []).None?;
    assert FirstError(fs, fs[1..]).None?;
  }

  lemma EmptyingEmpties()
    ensures FoldAddresses.EmptiedKeeper(ExampleRegistry().projects, EMPTYING_FOLDS, "p", 1)
  {
    hide FoldsOk, WellFormed, Claims, Picks, Lookup, PickingFold, ClaimingFold;
    var ps, fs := ExampleRegistry().projects, EMPTYING_FOLDS;
    EmptyingIsOk();
    EmptyingClaims();
    ExampleResolves(1);
    Claimer(ps, fs, fs[0], "p", 1);
    Picker(ps, fs, fs[1], "p", 1, 1);
  }

  lemma EmptyingApplies()
    ensures var r := ExampleRegistry();
            && Plannable(r, EMPTYING_PLAN) && Grouped(r, EMPTYING_PLAN).Ok?
            && DraftOf(r, EMPTYING_PLAN) == StartDraft(r) && FoldsOf(r, EMPTYING_PLAN) == EMPTYING_FOLDS
  {
    hide Folds, Sound, FirstError, Finished;
    ExampleSound();
    EmptyingFolds();
    EmptyingAccepted();
  }

  lemma ExampleVersion(a: Address)
    requires IsVersion(ExampleRegistry().projects, a)
    ensures a == VersionAt("p", At(ExampleRegistry().projects, a).value.uid, 1)
  {
  }

  lemma ExampleVersionsOnce()
    ensures VersionsOnce(ExampleRegistry().projects) && Live(ExampleRegistry().projects, ArtifactAt("p", 1))
  {
    hide Lookup, ExampleRegistry;
    ExampleResolves(1);
    var ps := ExampleRegistry().projects;
    forall a, b | IsVersion(ps, a) && IsVersion(ps, b) && At(ps, a).value.uid == At(ps, b).value.uid ensures a == b {
      ExampleVersion(a);
      ExampleVersion(b);
    }
  }

  /** Afterwards the address of what was artifact 1 leads to an artifact that holds none of its versions. */
  lemma KeeperCanBeEmptied()
    ensures var r := ExampleRegistry();
            && Plannable(r, EMPTYING_PLAN) && Grouped(r, EMPTYING_PLAN).Ok? && Live(r.projects, ArtifactAt("p", 1))
            && var o := Grouped(r, EMPTYING_PLAN).value;
               var b := Follow(o.mapping, ArtifactAt("p", 1));
               Live(o.registry.projects, b) && b.ArtifactAt?
               && At(r.projects, ArtifactAt("p", 1)).value.holds !! At(o.registry.projects, b).value.holds
  {
    hide Folds, Sound, FoldAddresses.EmptiedKeeper, FirstError, Plannable, Grouped, DraftOf, FoldsOf, VersionsOnce,
      Lookup;
    EmptyingApplies();
    ExampleVersionsOnce();
    EmptyingEmpties();
    GroupingSharesUnlessEmptied(ExampleRegistry(), EMPTYING_PLAN, ArtifactAt("p", 1));
  }
}

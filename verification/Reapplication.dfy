/** When applying a plan of whole artifacts to an already grouped registry changes nothing: first what a plan with
    nothing left to do returns, then the converse, and at the end a plan that changes the registry again when it is
    applied to its own result. */
module Reapplication {
  import opened Basics
  import Sorting
  import opened Registry
  import AddressMaps
  import opened Resolution
  import opened Densify
  import opened Merge
  import MergeTally
  import opened Fold
  import FoldAddresses
  import Gathering
  import opened Grouping

  /** The name the last spec that names `id` gives it. */
  function LastName(specs: seq<Spec>, id: string): Option<string>
  {
    if specs == [] then None
    else if LastName(specs[1..], id).Some? then LastName(specs[1..], id)
    else if specs[0].id == id then specs[0].name
    else None
  }

  function WithLastName(specs: seq<Spec>, p: Project): Project
  {
    match LastName(specs, p.id)
    case Some(name) => p.(name := name)
    case None => p
  }

  /** Every source is gone already, and every target is there under its name. */
  ghost predicate MergesNothing(ps: seq<Project>, specs: seq<Spec>)
  {
    && (forall id :: id in Sources(specs) ==> FindProject(ps, id).None?)
    && forall spec :: spec in specs ==>
         match FindProject(ps, spec.id)
         case None => false
         case Some(p) => WithLastName(specs, p) == p
  }

  /** No reference of the plan leads to a single version. */
  ghost predicate WholeArtifacts(r: Registry, groups: seq<Group>)
  {
    forall g, ref :: g in groups && ref in g.refs ==>
      match Resolve(r, RefAddress(g.project, ref))
      case Ok(place) => place.version == 0
      case Err(_) => true
  }

  /** The merges are done, and each group has come down to one artifact with the group's title. */
  ghost predicate NothingLeftToDo(r: Registry, plan: Plan)
  {
    && MergesNothing(r.projects, plan.specs)
    && Folds(r, plan.groups).Ok?
    && forall f :: f in Folds(r, plan.groups).value ==> |f.members| == 1 && f.members[0].title == f.title
  }

  // Merges that find nothing to do.

  function AllNamed(specs: seq<Spec>, ps: seq<Project>): seq<Project>
  {
    FilterMap((p: Project) => Some(WithLastName(specs, p)), ps)
  }

  lemma {:induction false} SourcesAbsent(d: Draft, tid: string, sids: seq<string>)
    requires forall id :: id in sids ==> FindProject(d.projects, id).None?
    ensures MergeSources(d, tid, sids) == Ok(d)
    decreases |sids|
  {
    if sids != [] {
      assert sids[0] in sids;
      SourcesAbsent(d, tid, sids[1..]);
    }
  }

  /** Naming one target and then the rest is naming them all. */
  lemma {:induction false} NamedTwice(specs: seq<Spec>, ps: seq<Project>)
    requires specs != []
    ensures AllNamed(specs[1..], FilterMap((p: Project) =>
              Some(if p.id == specs[0].id && specs[0].name.Some? then p.(name := specs[0].name.value) else p), ps))
            == AllNamed(specs, ps)
  {
    if ps != [] {
      NamedTwice(specs, ps[1..]);
    }
  }

  lemma {:induction false} ReplaceIsMap(ps: seq<Project>, p: Project, name: string)
    requires DistinctIds(ps) && p in ps
    ensures ReplaceProject(ps, p.(name := name)) ==
            FilterMap((q: Project) => Some(if q.id == p.id then q.(name := name) else q), ps)
  {
    if ps[0] == p {
      assert forall q :: q in ps[1..] ==> q.id != p.id;
      ReplaceIsMapElsewhere(ps[1..], p, name);
    } else {
      assert p in ps[1..];
      ReplaceIsMap(ps[1..], p, name);
    }
  }

  lemma {:induction false} ReplaceIsMapElsewhere(ps: seq<Project>, p: Project, name: string)
    requires forall q :: q in ps ==> q.id != p.id
    ensures ReplaceProject(ps, p.(name := name)) == ps
    ensures FilterMap((q: Project) => Some(if q.id == p.id then q.(name := name) else q), ps) == ps
  {
    if ps != [] {
      assert ps[0] in ps;
      ReplaceIsMapElsewhere(ps[1..], p, name);
      assert ps == [ps[0]] + ps[1..];
    }
  }

  lemma OpenIsNaming(ps: seq<Project>, spec: Spec)
    requires DistinctIds(ps) && FindProject(ps, spec.id).Some?
    ensures OpenTarget(ps, spec) ==
            FilterMap((p: Project) => Some(if p.id == spec.id && spec.name.Some? then p.(name := spec.name.value) else p), ps)
  {
    var f := (p: Project) => Some(if p.id == spec.id && spec.name.Some? then p.(name := spec.name.value) else p);
    var p := FindProject(ps, spec.id).value;
    if spec.name.Some? {
      ReplaceIsMap(ps, p, spec.name.value);
      FilterSame((q: Project) => Some(if q.id == p.id then q.(name := spec.name.value) else q), f, ps);
    } else {
      FilterNothing(f, ps);
    }
  }

  /** With every source gone and every target there, the merges only name the targets. */
  lemma {:induction false} MergesOnlyName(d: Draft, specs: seq<Spec>)
    requires WellFormed(d.projects)
    requires forall id :: id in Sources(specs) ==> FindProject(d.projects, id).None?
    requires forall spec :: spec in specs ==> FindProject(d.projects, spec.id).Some?
    ensures MergeSpecs(d, specs) == Ok(d.(projects := AllNamed(specs, d.projects)))
    decreases |specs|
  {
    if specs == [] {
      FilterNothing((p: Project) => Some(WithLastName(specs, p)), d.projects);
    } else {
      assert specs[0] in specs;
      var ready := d.(projects := OpenTarget(d.projects, specs[0]));
      OpenTargetShape(d.projects, specs[0]);
      forall id | id in specs[0].merge || id in Sources(specs[1..]) ensures FindProject(ready.projects, id).None? {
        assert id in Sources(specs);
      }
      SourcesAbsent(ready, specs[0].id, specs[0].merge);
      MergesOnlyName(ready, specs[1..]);
      OpenIsNaming(d.projects, specs[0]);
      NamedTwice(specs, d.projects);
    }
  }

  // Groups of whole artifacts.

  lemma {:induction false} WholeRefs(r: Registry, g: Group, s: Gathered, refs: seq<Ref>)
    requires s.picked == []
    requires forall ref :: ref in refs ==>
      match Resolve(r, RefAddress(g.project, ref)) case Ok(place) => place.version == 0 case Err(_) => true
    ensures GatherRefs(r, g, s, refs).Ok? && GatherRefs(r, g, s, refs).value.picked == []
    decreases |refs|
  {
    if refs != [] {
      assert refs[0] in refs;
      WholeRefs(r, g, GatherRef(r, g, s, refs[0]).value, refs[1..]);
    }
  }

  lemma {:induction false} WholeGroups(r: Registry, s: Gathered, folds: seq<Fold>, groups: seq<Group>)
    requires WholeArtifacts(r, groups) && forall f :: f in folds ==> f.picked == []
    ensures GatherGroups(r, s, folds, groups).Ok?
    ensures forall f :: f in GatherGroups(r, s, folds, groups).value ==> f.picked == []
    decreases |groups|
  {
    if groups != [] {
      var g := groups[0];
      assert g in groups;
      if FindProject(r.projects, g.project).None? {
        WholeGroups(r, s, folds, groups[1..]);
      } else {
        WholeRefs(r, g, s.(members := [], picked := []), g.refs);
        var s' := GatherRefs(r, g, s.(members := [], picked := []), g.refs).value;
        var added := if s'.members == [] then [] else [Gathering.GroupFold(g, s')];
        WholeGroups(r, s', folds + added, groups[1..]);
      }
    }
  }

  lemma NothingPicked(fs: seq<Fold>, p: string, n: nat, k: nat)
    requires forall f :: f in fs ==> f.picked == []
    ensures PickingFold(fs, p, n, k).None? && !TakenFrom(fs, p, n)
  {
  }

  // Folds that find nothing to do.

  /** Folds of one artifact each, already under the group's title, leave every project as it is. */
  lemma SingleFoldsKeep(ps: seq<Project>, fs: seq<Fold>)
    requires WellFormed(ps) && FoldsOk(ps, fs)
    requires forall f :: f in fs ==> f.picked == [] && |f.members| == 1 && f.members[0].title == f.title
    ensures Folded(ps, fs) == ps
    ensures forall a :: Live(ps, a) ==> FoldTarget(ps, fs, a) == a
  {
    forall p | p in ps ensures SettledProject(fs, p) == p {
      FilterNothing((x: Artifact) => Settled(fs, p.id, x), p.artifacts);
    }
    FilterNothing((p: Project) => Some(SettledProject(fs, p)), ps);
    forall a | Live(ps, a) ensures FoldTarget(ps, fs, a) == a {
      if a.VersionAt? {
        NothingPicked(fs, a.p, a.n, a.k);
      } else if a.ArtifactAt? {
        NothingPicked(fs, a.p, a.n, 0);
      }
    }
  }

  /** When no stage moves anything the plan's result is the registry itself. */
  lemma UnmovedFinish(r: Registry, fs: seq<Fold>)
    requires Sound(r) && DenseProjects(r.projects) == r.projects
    requires Folded(r.projects, fs) == r.projects && FoldMoves(r.projects, fs) == map[]
    ensures Finished(r, StartDraft(r), fs) == Outcome(r, map[], [])
  {
    var none: map<Address, Address> := map[];
    DenseMovesFixed(r.projects);
    forall a | a in r.redirects ensures Existed(r, a) {
      LiveExisted(r, a);
    }
    hide Sound, FoldMoves, DenseMoves, Folded, DenseProjects, Existed, Shadows, WellFormed, Live;
    IdleMaps(r, none);
    hide AddressMaps.Carried, FinalMapping, FinalRedirects, FoldedRedirects;
    assert FoldedRegistry(StartDraft(r), fs) == r;
    assert Densified(r) == r;
  }

  /** With nothing moved, the maps a plan computes are those it was given. */
  lemma IdleMaps(r: Registry, none: map<Address, Address>)
    requires none == map[] && forall a :: a in r.redirects ==> Existed(r, a)
    ensures FoldedRedirects(r.redirects, none, r.projects) == r.redirects
    ensures AddressMaps.Carried(none, none) == none && FinalMapping(r, none, none) == none
    ensures FinalRedirects(r, r.projects, r.redirects, none) == r.redirects
  {
    hide Existed, Live, Shadows;
  }

  /** A plan with nothing left to do returns the registry it was given, with an empty mapping. */
  lemma NothingLeftChangesNothing(r: Registry, plan: Plan)
    requires Plannable(r, plan) && DenseProjects(r.projects) == r.projects
    requires WholeArtifacts(r, plan.groups) && NothingLeftToDo(r, plan)
    ensures Grouped(r, plan) == Ok(Outcome(r, map[], []))
  {
    var d := StartDraft(r);
    var fs := Folds(r, plan.groups).value;
    MergesOnlyName(d, plan.specs);
    NamesKeep(r.projects, plan.specs);
    WholeGroups(r, Gathered(map[], map[], [], []), [], plan.groups);
    Gathering.FoldsAreOk(r, plan.groups);
    SingleFoldsKeep(r.projects, fs);
    SinglesAreFoldable(fs, fs);
    hide MergesNothing, WholeArtifacts, Folds, Folded, FoldMoves, DenseProjects, Sound, MergeSpecs, FirstError;
    UnmovedFinish(r, fs);
  }

  lemma {:induction false} SinglesAreFoldable(fs: seq<Fold>, rest: seq<Fold>)
    requires forall f :: f in fs ==> f.picked == []
    requires forall f :: f in rest ==> f.picked == [] && |f.members| == 1
    ensures FirstError(fs, rest).None?
  {
    if rest != [] {
      assert rest[0] in rest;
      NothingPicked(fs, rest[0].project, rest[0].members[0].number, 0);
      SinglesAreFoldable(fs, rest[1..]);
    }
  }

  lemma NamesKeep(ps: seq<Project>, specs: seq<Spec>)
    requires WellFormed(ps) && MergesNothing(ps, specs)
    ensures AllNamed(specs, ps) == ps
  {
    forall p | p in ps ensures WithLastName(specs, p) == p {
      if LastName(specs, p.id).Some? {
        LastNameIsGiven(specs, p.id);
        var spec :| spec in specs && spec.id == p.id;
        var i :| 0 <= i < |ps| && ps[i] == p;
      }
    }
    FilterNothing((p: Project) => Some(WithLastName(specs, p)), ps);
  }

  lemma {:induction false} LastNameIsGiven(specs: seq<Spec>, id: string)
    requires LastName(specs, id).Some?
    ensures exists spec :: spec in specs && spec.id == id
  {
    if LastName(specs[1..], id).Some? {
      LastNameIsGiven(specs[1..], id);
    } else {
      assert specs[0] in specs;
    }
  }

  /** The result of a plan is numbered already, so it can be grouped again on these terms. */
  lemma GroupedIsDense(r: Registry, plan: Plan)
    requires Plannable(r, plan) && Grouped(r, plan).Ok?
    ensures DenseProjects(Grouped(r, plan).value.registry.projects) == Grouped(r, plan).value.registry.projects
    ensures Plannable(Grouped(r, plan).value.registry, plan)
  {
    var d, fs := DraftOf(r, plan), FoldsOf(r, plan);
    StagesHold(r, plan);
    FoldAddresses.FoldedWellFormed(d.projects, fs);
    DenseProjectsFixed(Folded(d.projects, fs));
    GroupingKeepsEverything(r, plan);
  }

  // Conversely: which plans change nothing.

  function Ids(ps: seq<Project>): set<string>
  {
    set p | p in ps :: p.id
  }

  function Targets(specs: seq<Spec>): set<string>
  {
    set spec | spec in specs :: spec.id
  }

  lemma IdsFound(ps: seq<Project>, id: string)
    ensures id in Ids(ps) <==> FindProject(ps, id).Some?
  {
  }

  lemma {:induction false} MapKeepsIds(f: Project -> Option<Project>, ps: seq<Project>)
    requires forall p :: p in ps ==> f(p).Some? && f(p).value.id == p.id
    ensures Ids(FilterMap(f, ps)) == Ids(ps)
  {
    if ps != [] {
      assert ps[0] in ps;
      MapKeepsIds(f, ps[1..]);
      assert ps == [ps[0]] + ps[1..];
      assert Ids(ps) == {ps[0].id} + Ids(ps[1..]);
      assert Ids(FilterMap(f, ps)) == {f(ps[0]).value.id} + Ids(FilterMap(f, ps[1..]));
    }
  }

  lemma MergeSourceIds(d: Draft, tid: string, sid: string)
    requires DistinctIds(d.projects) && tid in Ids(d.projects) && tid != sid && MergeSource(d, tid, sid).Ok?
    ensures DistinctIds(MergeSource(d, tid, sid).value.projects)
    ensures Ids(MergeSource(d, tid, sid).value.projects) == Ids(d.projects) - {sid}
  {
    var after := MergeSource(d, tid, sid).value.projects;
    IdsFound(d.projects, tid);
    IdsFound(d.projects, sid);
    forall id ensures id in Ids(after) <==> id in Ids(d.projects) - {sid} {
      IdsFound(d.projects, id);
      IdsFound(after, id);
      if FindProject(d.projects, sid).Some? {
        var s, t := FindProject(d.projects, sid).value, FindProject(d.projects, tid).value;
        AbsorbedFindsProject(d.projects, Enlarged(t, s), s, id);
      }
    }
    if FindProject(d.projects, sid).Some? {
      AbsorbedFindsProject(d.projects, Enlarged(FindProject(d.projects, tid).value, FindProject(d.projects, sid).value),
                           FindProject(d.projects, sid).value, tid);
    }
  }

  lemma {:induction false} MergeSourcesIds(d: Draft, tid: string, sids: seq<string>)
    requires DistinctIds(d.projects) && tid in Ids(d.projects) && tid !in sids && MergeSources(d, tid, sids).Ok?
    ensures DistinctIds(MergeSources(d, tid, sids).value.projects)
    ensures Ids(MergeSources(d, tid, sids).value.projects) == Ids(d.projects) - Elements(sids)
    decreases |sids|
  {
    if sids != [] {
      assert sids[0] in sids;
      MergeSourceIds(d, tid, sids[0]);
      MergeSourcesIds(MergeSource(d, tid, sids[0]).value, tid, sids[1..]);
      assert Elements(sids) == {sids[0]} + Elements(sids[1..]);
    }
  }

  lemma OpenTargetIds(ps: seq<Project>, spec: Spec)
    requires DistinctIds(ps)
    ensures DistinctIds(OpenTarget(ps, spec))
    ensures Ids(OpenTarget(ps, spec)) == Ids(ps) + {spec.id}
  {
    IdsFound(ps, spec.id);
    match FindProject(ps, spec.id)
    case None =>
    case Some(p) =>
      if spec.name.Some? {
        ReplaceProjectShape(ps, p, p.(name := spec.name.value));
      }
  }

  /** The merges leave the projects there were and the targets, less the sources. */
  lemma {:induction false} MergeSpecsIds(d: Draft, specs: seq<Spec>, sources: set<string>)
    requires DistinctIds(d.projects) && Sources(specs) <= sources && Targets(specs) !! sources
    requires MergeSpecs(d, specs).Ok?
    ensures Ids(MergeSpecs(d, specs).value.projects) == Ids(d.projects) + Targets(specs) - Sources(specs)
    decreases |specs|
  {
    if specs != [] {
      var spec, rest := specs[0], specs[1..];
      var ready := d.(projects := OpenTarget(d.projects, spec));
      assert spec in specs;
      assert Targets(specs) == {spec.id} + Targets(rest);
      assert Sources(specs) == Elements(spec.merge) + Sources(rest) by {
        assert forall one :: one in specs <==> one == spec || one in rest;
      }
      OpenTargetIds(d.projects, spec);
      MergeSourcesIds(ready, spec.id, spec.merge);
      MergeSpecsIds(MergeSources(ready, spec.id, spec.merge).value, rest, sources);
    }
  }

  /** Folding and renumbering keep each project's id and name. */
  lemma FinishedProjects(ps: seq<Project>, fs: seq<Fold>, id: string)
    requires DistinctIds(ps)
    ensures var after := DenseProjects(Folded(ps, fs));
            && (FindProject(after, id).Some? <==> FindProject(ps, id).Some?)
            && (FindProject(ps, id).Some? ==>
                  FindProject(after, id) == Some(DenseProject(SettledProject(fs, FindProject(ps, id).value))))
  {
    FilterDistinctIds((q: Project) => Some(SettledProject(fs, q)), ps);
    FindProjectMap((q: Project) => Some(SettledProject(fs, q)), ps, id);
    FindProjectMap(q => Some(DenseProject(q)), Folded(ps, fs), id);
  }

  lemma {:induction false} FilterDrops<S, T>(f: S -> Option<T>, xs: seq<S>, x: S)
    requires x in xs && f(x).None?
    ensures |FilterMap(f, xs)| < |xs|
  {
    if xs[0] != x {
      FilterDrops(f, xs[1..], x);
    }
  }

  lemma {:induction false} MapPointwise<S, T>(f: S -> Option<T>, xs: seq<S>)
    requires forall x :: x in xs ==> f(x).Some?
    ensures |FilterMap(f, xs)| == |xs|
    ensures forall i :: 0 <= i < |xs| ==> Some(FilterMap(f, xs)[i]) == f(xs[i])
  {
    if xs != [] {
      assert xs[0] in xs;
      MapPointwise(f, xs[1..]);
    }
  }

  lemma FixedPointwise(ps: seq<Project>, p: Project)
    requires DenseProjects(ps) == ps && p in ps
    ensures DenseProject(p) == p
  {
    var f := (q: Project) => Some(DenseProject(q));
    var i :| 0 <= i < |ps| && ps[i] == p;
    MapPointwise(f, ps);
  }

  /** A numbered project whose titles change stays numbered as it is. */
  lemma RetitledFixed(p: Project, q: Project)
    requires WellNumbered(p) && DenseProject(p) == p
    requires q.next == p.next && |q.artifacts| == |p.artifacts|
    requires forall i :: 0 <= i < |p.artifacts| ==> q.artifacts[i] == p.artifacts[i].(title := q.artifacts[i].title)
    ensures DenseProject(q) == q
  {
    DenseProjectFixed(p);
    Sorting.SortBySorts(DenseKey, p.artifacts);
    forall i, j | 0 <= i < j < |q.artifacts| ensures DenseKey(q.artifacts[i]).Le(DenseKey(q.artifacts[j])) {
      assert DenseKey(p.artifacts[i]).Le(DenseKey(p.artifacts[j]));
    }
    Sorting.SortBySorted(DenseKey, q.artifacts);
    assert Renumbered(q.artifacts) == q.artifacts;
  }

  /** What a plan that changes nothing must have found. */
  ghost predicate ChangesNothing(r: Registry, plan: Plan)
  {
    Grouped(r, plan) == Ok(Outcome(r, map[], []))
  }

  lemma UnchangedProjects(r: Registry, plan: Plan, id: string)
    requires Plannable(r, plan) && ChangesNothing(r, plan)
    ensures DenseProjects(Folded(DraftOf(r, plan).projects, FoldsOf(r, plan))) == r.projects
    ensures FindProject(r.projects, id).Some? <==> FindProject(DraftOf(r, plan).projects, id).Some?
    ensures FindProject(r.projects, id).Some? ==>
              FindProject(r.projects, id).value ==
              DenseProject(SettledProject(FoldsOf(r, plan), FindProject(DraftOf(r, plan).projects, id).value))
  {
    StagesHold(r, plan);
    FinishedProjects(DraftOf(r, plan).projects, FoldsOf(r, plan), id);
  }

  /** A plan that changes nothing finds its sources gone and its targets there. */
  lemma UnchangedIds(r: Registry, plan: Plan)
    requires Plannable(r, plan) && ChangesNothing(r, plan)
    ensures forall id :: id in Sources(plan.specs) ==> FindProject(r.projects, id).None?
    ensures forall spec :: spec in plan.specs ==> FindProject(r.projects, spec.id).Some?
  {
    var d := DraftOf(r, plan);
    MergeSpecsIds(StartDraft(r), plan.specs, Sources(plan.specs));
    hide Plannable, ChangesNothing, Grouped, FindProject;
    forall id ensures id in Ids(r.projects) <==> id in Ids(d.projects) {
      UnchangedProjects(r, plan, id);
      IdsFound(r.projects, id);
      IdsFound(d.projects, id);
    }
    assert Ids(r.projects) == Ids(r.projects) + Targets(plan.specs) - Sources(plan.specs);
    forall id | id in Sources(plan.specs) ensures FindProject(r.projects, id).None? {
      IdsFound(r.projects, id);
    }
    forall spec | spec in plan.specs ensures FindProject(r.projects, spec.id).Some? {
      IdsFound(r.projects, spec.id);
      assert spec.id in Targets(plan.specs);
    }
  }

  lemma UnchangedMeansMerged(r: Registry, plan: Plan)
    requires Plannable(r, plan) && ChangesNothing(r, plan)
    ensures MergesNothing(r.projects, plan.specs)
    ensures DraftOf(r, plan) == StartDraft(r)
  {
    UnchangedIds(r, plan);
    MergesOnlyName(StartDraft(r), plan.specs);
    forall spec | spec in plan.specs
      ensures WithLastName(plan.specs, FindProject(r.projects, spec.id).value) == FindProject(r.projects, spec.id).value
    {
      UnchangedProjects(r, plan, spec.id);
      FindProjectMap((p: Project) => Some(WithLastName(plan.specs, p)), r.projects, spec.id);
    }
    NamesKeep(r.projects, plan.specs);
  }

  /** Folding two artifacts into one leaves the project an artifact short. */
  lemma FoldShrinks(ps: seq<Project>, fs: seq<Fold>, f: Fold)
    requires WellFormed(ps) && FoldsOk(ps, fs) && f in fs && |f.members| > 1
    ensures var p := FindProject(ps, f.project);
            p.Some? && |DenseProject(SettledProject(fs, p.value)).artifacts| < |p.value.artifacts|
  {
    var x := f.members[1];
    assert x in f.members && FoldOk(ps, f) && f.members[0].number != x.number;
    assert Lookup(ps, f.project, x.number) == Some(x);
    Claimer(ps, fs, f, f.project, x.number);
    var p := FindProject(ps, f.project).value;
    FilterDrops((y: Artifact) => Settled(fs, p.id, y), p.artifacts, x);
  }

  lemma UnchangedMeansSingle(r: Registry, plan: Plan, f: Fold)
    requires Plannable(r, plan) && ChangesNothing(r, plan) && DraftOf(r, plan) == StartDraft(r)
    requires f in FoldsOf(r, plan)
    ensures |f.members| == 1
  {
    StagesHold(r, plan);
    assert WellFormed(r.projects) && FoldsOk(r.projects, FoldsOf(r, plan)) && FoldOk(r.projects, f);
    hide WellFormed, FoldsOk, FoldOk, Staged, DraftGood, Grouped, FoldsOf, FindProject, SettledProject, DenseProject;
    UnchangedProjects(r, plan, f.project);
    if |f.members| > 1 {
      FoldShrinks(r.projects, FoldsOf(r, plan), f);
    }
  }

  lemma SingleFoldsRetitle(ps: seq<Project>, fs: seq<Fold>, p: Project)
    requires WellFormed(ps) && FoldsOk(ps, fs) && p in ps && DenseProject(p) == p
    requires forall f :: f in fs ==> f.picked == [] && |f.members| == 1
    ensures DenseProject(SettledProject(fs, p)) == SettledProject(fs, p)
  {
    var q := SettledProject(fs, p);
    var g := (x: Artifact) => Settled(fs, p.id, x);
    forall x | x in p.artifacts ensures g(x).Some? && g(x).value == x.(title := g(x).value.title) {
      NothingPicked(fs, p.id, x.number, 0);
      match ClaimingFold(fs, p.id, x.number)
      case Some(f) => NothingPicked(fs, f.project, f.members[0].number, 0);
      case None =>
    }
    MapPointwise(g, p.artifacts);
    RetitledFixed(p, q);
  }

  /** A fold of one artifact leaves it under the group's title. */
  lemma KeeperTitled(ps: seq<Project>, fs: seq<Fold>, f: Fold, p: Project)
    requires WellFormed(ps) && FoldsOk(ps, fs) && f in fs && FindProject(ps, f.project) == Some(p)
    requires forall g :: g in fs ==> g.picked == [] && |g.members| == 1
    ensures FindArtifact(p.artifacts, f.members[0].number) == Some(f.members[0])
    ensures var found := FindArtifact(SettledProject(fs, p).artifacts, f.members[0].number);
            found.Some? && found.value.title == f.title
  {
    var x := f.members[0];
    assert FoldOk(ps, f) && x in f.members;
    Claimer(ps, fs, f, f.project, x.number);
    NothingPicked(fs, f.project, x.number, 0);
    FindArtifactFilter((y: Artifact) => Settled(fs, p.id, y), p.artifacts, x.number);
  }

  lemma UnchangedMeansTitled(r: Registry, plan: Plan, f: Fold)
    requires Plannable(r, plan) && ChangesNothing(r, plan) && DraftOf(r, plan) == StartDraft(r)
    requires DenseProjects(r.projects) == r.projects
    requires forall g :: g in FoldsOf(r, plan) ==> g.picked == [] && |g.members| == 1
    requires f in FoldsOf(r, plan)
    ensures f.members[0].title == f.title
  {
    var fs := FoldsOf(r, plan);
    StagesHold(r, plan);
    assert WellFormed(r.projects) && FoldsOk(r.projects, fs);
    assert FindProject(r.projects, f.project).Some? by {
      assert FoldOk(r.projects, f) && f.members[0] in f.members;
    }
    hide WellFormed, FoldsOk, Staged, DraftGood, Grouped, FoldsOf, DenseProject, DenseProjects, SettledProject;
    UnchangedProjects(r, plan, f.project);
    var p := FindProject(r.projects, f.project).value;
    FixedPointwise(r.projects, p);
    SingleFoldsRetitle(r.projects, fs, p);
    KeeperTitled(r.projects, fs, f, p);
  }

  /** Applied to a registry already numbered, a plan of whole artifacts changes nothing exactly when its merges
      are done and each of its groups resolves to a single artifact that has the group's title. */
  lemma ChangesNothingIff(r: Registry, plan: Plan)
    requires Plannable(r, plan) && DenseProjects(r.projects) == r.projects && WholeArtifacts(r, plan.groups)
    ensures ChangesNothing(r, plan) <==> NothingLeftToDo(r, plan)
  {
    if NothingLeftToDo(r, plan) {
      NothingLeftChangesNothing(r, plan);
    }
    if ChangesNothing(r, plan) {
      UnchangedMeansMerged(r, plan);
      WholeGroups(r, Gathered(map[], map[], [], []), [], plan.groups);
      forall f | f in FoldsOf(r, plan) ensures |f.members| == 1 {
        UnchangedMeansSingle(r, plan, f);
      }
      forall f | f in FoldsOf(r, plan) ensures f.members[0].title == f.title {
        UnchangedMeansTitled(r, plan, f);
      }
    }
  }

  // What is left to do after a plan has been applied once.

  lemma MergeSourceName(d: Draft, tid: string, sid: string, id: string)
    requires DistinctIds(d.projects) && tid != sid && id != sid && MergeSource(d, tid, sid).Ok?
    requires FindProject(d.projects, id).Some?
    ensures FindProject(MergeSource(d, tid, sid).value.projects, id).Some?
    ensures FindProject(MergeSource(d, tid, sid).value.projects, id).value.name == FindProject(d.projects, id).value.name
    ensures DistinctIds(MergeSource(d, tid, sid).value.projects)
  {
    var s, t := FindProject(d.projects, sid), FindProject(d.projects, tid);
    if s.Some? && t.Some? {
      AbsorbedFindsProject(d.projects, Enlarged(t.value, s.value), s.value, id);
    }
  }

  lemma {:induction false} MergeSourcesName(d: Draft, tid: string, sids: seq<string>, id: string)
    requires DistinctIds(d.projects) && tid !in sids && id !in sids && MergeSources(d, tid, sids).Ok?
    requires FindProject(d.projects, id).Some?
    ensures FindProject(MergeSources(d, tid, sids).value.projects, id).Some?
    ensures FindProject(MergeSources(d, tid, sids).value.projects, id).value.name == FindProject(d.projects, id).value.name
    ensures DistinctIds(MergeSources(d, tid, sids).value.projects)
    decreases |sids|
  {
    if sids != [] {
      hide FindProject;
      assert sids[0] in sids;
      MergeSourceName(d, tid, sids[0], id);
      MergeSourcesName(MergeSource(d, tid, sids[0]).value, tid, sids[1..], id);
    }
  }

  lemma OpenTargetName(ps: seq<Project>, spec: Spec, id: string)
    requires DistinctIds(ps) && (FindProject(ps, id).Some? || spec.id == id)
    ensures DistinctIds(OpenTarget(ps, spec)) && FindProject(OpenTarget(ps, spec), id).Some?
    ensures var name := FindProject(OpenTarget(ps, spec), id).value.name;
            && (spec.id == id && spec.name.Some? ==> name == spec.name.value)
            && (FindProject(ps, id).Some? && !(spec.id == id && spec.name.Some?) ==> name == FindProject(ps, id).value.name)
  {
    match FindProject(ps, spec.id)
    case None =>
      FindAppended(ps, Project(spec.id, if spec.name.Some? then spec.name.value else spec.id, Some(1), []), id);
    case Some(p) =>
      if spec.name.Some? {
        ReplaceProjectShape(ps, p, p.(name := spec.name.value));
      }
  }

  /** A target ends with the last name the plan gives it. */
  lemma {:induction false} MergedName(d: Draft, specs: seq<Spec>, id: string)
    requires DistinctIds(d.projects) && SourcesAreNotTargets(specs) && id !in Sources(specs) && MergeSpecs(d, specs).Ok?
    requires FindProject(d.projects, id).Some? || id in Targets(specs)
    ensures var found := FindProject(MergeSpecs(d, specs).value.projects, id);
            && found.Some?
            && match LastName(specs, id)
               case Some(name) => found.value.name == name
               case None => FindProject(d.projects, id).Some? ==> found.value.name == FindProject(d.projects, id).value.name
    decreases |specs|
  {
    if specs != [] {
      var spec, rest := specs[0], specs[1..];
      var ready := d.(projects := OpenTarget(d.projects, spec));
      SpecsApart(specs, id);
      OpenTargetIds(d.projects, spec);
      if FindProject(d.projects, id).Some? || spec.id == id {
        OpenTargetName(d.projects, spec, id);
        hide FindProject, OpenTarget, MergeSources;
        MergeSourcesName(ready, spec.id, spec.merge, id);
        MergedName(MergeSources(ready, spec.id, spec.merge).value, rest, id);
      } else {
        MergeSourcesIds(ready, spec.id, spec.merge);
        MergedName(MergeSources(ready, spec.id, spec.merge).value, rest, id);
      }
    }
  }

  lemma SpecsApart(specs: seq<Spec>, id: string)
    requires specs != [] && SourcesAreNotTargets(specs) && id !in Sources(specs)
    ensures SourcesAreNotTargets(specs[1..]) && id !in Sources(specs[1..]) && id !in specs[0].merge
    ensures specs[0].id !in specs[0].merge
    ensures id in Targets(specs) ==> specs[0].id == id || id in Targets(specs[1..])
  {
    var rest := specs[1..];
    assert specs[0] in specs && forall spec :: spec in rest ==> spec in specs;
    assert Sources(rest) <= Sources(specs);
  }

  /** After a plan its merges have nothing to do. */
  lemma GroupedMergesNothing(r: Registry, plan: Plan)
    requires Plannable(r, plan) && Grouped(r, plan).Ok?
    ensures MergesNothing(Grouped(r, plan).value.registry.projects, plan.specs)
  {
    hide Grouped, DraftOf, FoldsOf, Finished, DenseProject, SettledProject, MergeSpecs;
    var d, fs := DraftOf(r, plan), FoldsOf(r, plan);
    var after := Grouped(r, plan).value.registry.projects;
    StagesHold(r, plan);
    GroupedParts(r, plan);
    FinishedParts(r, d, fs);
    forall id | id in Sources(plan.specs) ensures FindProject(after, id).None? {
      MergeTally.SourcesGone(r, plan.specs, id);
      FinishedProjects(d.projects, fs, id);
    }
    forall spec | spec in plan.specs
      ensures FindProject(after, spec.id).Some?
              && WithLastName(plan.specs, FindProject(after, spec.id).value) == FindProject(after, spec.id).value
    {
      assert spec.id in Targets(plan.specs) && spec.id !in Sources(plan.specs);
      MergedName(StartDraft(r), plan.specs, spec.id);
      FinishedProjects(d.projects, fs, spec.id);
      FinishedName(fs, FindProject(d.projects, spec.id).value);
    }
  }

  lemma FinishedName(fs: seq<Fold>, p: Project)
    ensures DenseProject(SettledProject(fs, p)).name == p.name && DenseProject(SettledProject(fs, p)).id == p.id
  {
  }

  /** Applied again, an applied plan of whole artifacts changes nothing exactly when each of its groups resolves, in the
      registry it has made, to one artifact of the group's title. */
  lemma ReapplyingChangesNothingIff(r: Registry, plan: Plan)
    requires Plannable(r, plan) && Grouped(r, plan).Ok?
    requires WholeArtifacts(Grouped(r, plan).value.registry, plan.groups)
    ensures var once := Grouped(r, plan).value.registry;
            && Folds(once, plan.groups).Ok?
            && (ChangesNothing(once, plan) <==>
                forall f :: f in Folds(once, plan.groups).value ==> |f.members| == 1 && f.members[0].title == f.title)
  {
    hide Grouped, MergesNothing, Folds, ChangesNothing, Plannable, WholeArtifacts;
    var once := Grouped(r, plan).value.registry;
    GroupedIsDense(r, plan);
    GroupedMergesNothing(r, plan);
    WholeFoldsOk(once, plan.groups);
    ChangesNothingIff(once, plan);
  }

  lemma WholeFoldsOk(r: Registry, groups: seq<Group>)
    requires WholeArtifacts(r, groups)
    ensures Folds(r, groups).Ok?
  {
    WholeGroups(r, Gathered(map[], map[], [], []), [], groups);
  }

  // A plan of whole artifacts that does not come to rest: folding 1 and 2 makes what was 3 the new 2.

  const EXAMPLE_PLAN := Plan([], [Group("p", "A", [Number(1), Number(2)])])

  function ExampleArtifact(n: nat): Artifact
  {
    Artifact(n, n, "", [], [Version(n, 1, "", n)], 1)
  }

  function ExampleRegistry(): Registry
  {
    Registry([Project("p", "p", Some(4), [ExampleArtifact(1), ExampleArtifact(2), ExampleArtifact(3)])], map[])
  }

  lemma NumberResolves(r: Registry, p: string, n: nat)
    requires Unshadowed(r) && Lookup(r.projects, p, n).Some?
    ensures var found := Resolve(r, ArtifactAt(p, n));
            found.Ok? && found.value.project.id == p && found.value.artifact == Lookup(r.projects, p, n).value
            && found.value.version == 0
  {
    LiveResolvesToItself(r, ArtifactAt(p, n), |r.redirects| + 1);
  }

  /** In any sound registry where artifacts 1 and 2 are live the plan makes one fold of the two. */
  lemma ExampleFolds(r: Registry)
    requires Unshadowed(r) && Lookup(r.projects, "p", 1).Some? && Lookup(r.projects, "p", 2).Some?
    ensures var folds := Folds(r, EXAMPLE_PLAN.groups);
            folds.Ok? && |folds.value| == 1 && folds.value[0].project == "p" && folds.value[0].picked == []
            && folds.value[0].members == ByNumber([Lookup(r.projects, "p", 1).value, Lookup(r.projects, "p", 2).value])
    ensures WholeArtifacts(r, EXAMPLE_PLAN.groups)
  {
    NumberResolves(r, "p", 1);
    NumberResolves(r, "p", 2);
    hide Resolve, Lookup, Unshadowed, ByNumber;
    var g := EXAMPLE_PLAN.groups[0];
    assert g.refs == [Number(1), Number(2)] && g.project == "p" && g.title == "A";
    var x, y := Lookup(r.projects, "p", 1).value, Lookup(r.projects, "p", 2).value;
    var s2 := TwoRefs(r, g, x, y);
    OneGroup(r, g, s2);
  }

  lemma TwoRefs(r: Registry, g: Group, x: Artifact, y: Artifact) returns (s2: Gathered)
    requires g.project == "p" && g.title == "A" && g.refs == [Number(1), Number(2)] && x != y
    requires forall n, z :: (n == 1 && z == x) || (n == 2 && z == y) ==>
               Resolve(r, ArtifactAt("p", n)).Ok? && Resolve(r, ArtifactAt("p", n)).value.project.id == "p"
               && Resolve(r, ArtifactAt("p", n)).value.artifact == z && Resolve(r, ArtifactAt("p", n)).value.version == 0
               && z.number == n
    ensures GatherRefs(r, g, Gathered(map[], map[], [], []), g.refs) == Ok(s2)
    ensures s2.members == [x, y] && s2.picked == []
  {
    hide Resolve;
    var s0 := Gathered(map[], map[], [], []);
    var s1 := GatherRef(r, g, s0, Number(1)).value;
    s2 := GatherRef(r, g, s1, Number(2)).value;
    assert s1.members == [x] && s2.members == [x, y] && s2.picked == [];
    assert GatherRefs(r, g, s2, []) == Ok(s2);
    assert [Number(1), Number(2)][1..] == [Number(2)];
    assert GatherRefs(r, g, s1, [Number(2)]) == Ok(s2);
  }

  lemma OneGroup(r: Registry, g: Group, s2: Gathered)
    requires FindProject(r.projects, g.project).Some? && s2.picked == [] && s2.members != []
    requires GatherRefs(r, g, Gathered(map[], map[], [], []), g.refs) == Ok(s2)
    ensures Folds(r, [g]) == Ok([Fold(g.project, g.title, ByNumber(s2.members), [])])
  {
    hide GatherRefs, ByNumber;
    var s0 := Gathered(map[], map[], [], []);
    assert s0.(members := [], picked := []) == s0;
    var folds := [] + [Fold(g.project, g.title, ByNumber(s2.members), s2.picked)];
    assert GatherGroups(r, s2, folds, []) == Ok(folds);
    assert [g][0] == g && [g][1..] == [];
    assert GatherGroups(r, s0, [], [g]) == GatherGroups(r, s2, folds, [g][1..]);
    assert folds == [Fold(g.project, g.title, ByNumber(s2.members), [])];
  }

  lemma ExampleSound()
    ensures Sound(ExampleRegistry())
    ensures Lookup(ExampleRegistry().projects, "p", 1) == Some(ExampleArtifact(1))
    ensures Lookup(ExampleRegistry().projects, "p", 2) == Some(ExampleArtifact(2))
  {
  }

  lemma {:induction false} WholeFoldsAccepted(ps: seq<Project>, fs: seq<Fold>, rest: seq<Fold>)
    requires WellFormed(ps) && (forall f :: f in fs ==> f.picked == []) && forall f :: f in rest ==> FoldOk(ps, f)
    ensures FirstError(fs, rest).None?
  {
    if rest != [] {
      assert rest[0] in rest;
      WholeFoldsAccepted(ps, fs, rest[1..]);
    }
  }

  lemma ExampleApplies()
    ensures Plannable(ExampleRegistry(), EXAMPLE_PLAN) && Grouped(ExampleRegistry(), EXAMPLE_PLAN).Ok?
    ensures DraftOf(ExampleRegistry(), EXAMPLE_PLAN) == StartDraft(ExampleRegistry())
    ensures FoldsOf(ExampleRegistry(), EXAMPLE_PLAN) == Folds(ExampleRegistry(), EXAMPLE_PLAN.groups).value
  {
    var r := ExampleRegistry();
    ExampleSound();
    ExampleFolds(r);
    Gathering.FoldsAreOk(r, EXAMPLE_PLAN.groups);
    hide ExampleRegistry, Folds, Sound;
    WholeFoldsAccepted(r.projects, Folds(r, EXAMPLE_PLAN.groups).value, Folds(r, EXAMPLE_PLAN.groups).value);
  }

  function ExampleApplied(): Registry
  {
    match Grouped(ExampleRegistry(), EXAMPLE_PLAN)
    case Ok(o) => o.registry
    case Err(_) => ExampleRegistry()
  }

  /** The example's fold keeps 1, drops 2 and leaves 3 alone. */
  lemma ExampleSettles(fs: seq<Fold>)
    requires |fs| == 1 && fs[0].project == "p" && fs[0].picked == []
    requires fs[0].members == ByNumber([ExampleArtifact(1), ExampleArtifact(2)])
    ensures |SettledProject(fs, ExampleRegistry().projects[0]).artifacts| >= 2
  {
    var x, y, z := ExampleArtifact(1), ExampleArtifact(2), ExampleArtifact(3);
    assert ByNumber([x, y]) == [x, y] by {
      Sorting.SortBySorted(NumberKey, [x, y]);
    }
    NothingPicked(fs, "p", 3, 0);
    assert PositionOf([x, y], 1) == 0 && PositionOf([x, y], 3) == 2;
    assert Settled(fs, "p", x).Some? && Settled(fs, "p", z) == Some(z);
    KeepsEnds((a: Artifact) => Settled(fs, "p", a), x, y, z);
  }

  lemma KeepsEnds(g: Artifact -> Option<Artifact>, x: Artifact, y: Artifact, z: Artifact)
    requires g(x).Some? && g(z).Some?
    ensures |FilterMap(g, [x, y, z])| >= 2
  {
    assert [x, y, z][1..] == [y, z] && [y, z][1..] == [z] && [z][1..] == [];
    assert FilterMap(g, [z]) == [g(z).value];
    assert |FilterMap(g, [y, z])| >= 1;
  }

  /** After the plan there are still artifacts 1 and 2. */
  lemma ExampleLeavesTwo()
    ensures Lookup(ExampleApplied().projects, "p", 1).Some? && Lookup(ExampleApplied().projects, "p", 2).Some?
  {
    var r := ExampleRegistry();
    var p := r.projects[0];
    ExampleApplies();
    ExampleSound();
    ExampleFolds(r);
    StagesHold(r, EXAMPLE_PLAN);
    var fs := FoldsOf(r, EXAMPLE_PLAN);
    ExampleSettles(fs);
    FinishedProjects(r.projects, fs, "p");
    assert FindProject(r.projects, "p") == Some(p);
    var q := SettledProject(fs, p);
    hide SettledProject, Grouped, Folds, Folded, FoldsOf, Plannable, Staged, Sound, DraftGood, WellFormed;
    var ys := DenseProject(q).artifacts;
    assert ys[0].number == 1 && ys[1].number == 2;
    assert ys[0] in ys && ys[1] in ys;
    assert ExampleApplied().projects == DenseProjects(Folded(r.projects, fs));
  }

  /** Applying an applied plan of whole artifacts can change the registry again. */
  lemma AppliedPlanCanChangeMore()
    ensures Plannable(ExampleRegistry(), EXAMPLE_PLAN) && Grouped(ExampleRegistry(), EXAMPLE_PLAN).Ok?
    ensures var once := Grouped(ExampleRegistry(), EXAMPLE_PLAN).value.registry;
            WholeArtifacts(once, EXAMPLE_PLAN.groups) && !ChangesNothing(once, EXAMPLE_PLAN)
  {
    var r := ExampleRegistry();
    ExampleApplies();
    ExampleLeavesTwo();
    var once := Grouped(r, EXAMPLE_PLAN).value.registry;
    GroupingKeepsEverything(r, EXAMPLE_PLAN);
    GroupedIsDense(r, EXAMPLE_PLAN);
    hide ExampleRegistry, Grouped, Sound;
    ExampleFolds(once);
    ChangesNothingIff(once, EXAMPLE_PLAN);
    assert Folds(once, EXAMPLE_PLAN.groups).value[0] in Folds(once, EXAMPLE_PLAN.groups).value;
  }
}

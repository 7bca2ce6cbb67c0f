/** What a grouping plan makes of the addresses that were retired before it. */
module Retirement {
  import opened Basics
  import opened Registry
  import opened AddressMaps
  import Resolution
  import opened Densify
  import opened Merge
  import MergeTally
  import opened Fold
  import FoldAddresses
  import opened Grouping

  // The later stages.

  /** No stage of the plan put anything at `a`. */
  ghost predicate PassedOver(d: Draft, fs: seq<Fold>, a: Address)
  {
    && !Live(d.projects, a)
    && !Live(Folded(d.projects, fs), a)
    && !Shadows(DenseProjects(Folded(d.projects, fs)), a)
  }

  /** `a` redirects to where the thing is that it led to before. */
  ghost predicate StillLeads(r: Registry, now: Registry, a: Address)
    requires a in r.redirects
  {
    && a in now.redirects && Live(r.projects, r.redirects[a]) && Live(now.projects, now.redirects[a])
    && Leads(At(r.projects, r.redirects[a]).value, At(now.projects, now.redirects[a]).value, false)
  }

  lemma RetiredThroughDensify(r: Registry, folded: Registry, mapping: map<Address, Address>, a: Address)
    requires WellFormed(folded.projects) && EndsLive(folded.redirects, folded.projects)
    requires a !in mapping && Existed(r, a)
    requires !Live(folded.projects, a) && !Shadows(DenseProjects(folded.projects), a)
    ensures var dense := Densified(folded);
            var final := FinalRedirects(r, dense.projects, dense.redirects, FinalMapping(r, mapping, DenseMoves(folded.projects)));
            && (a in final <==> a in folded.redirects)
            && (a in final ==> At(dense.projects, final[a]) == At(folded.projects, folded.redirects[a]))
  {
    DenseCarries(folded.projects);
    assert a !in DenseMoves(folded.projects);
  }

  lemma FoldedRedirect(d: Draft, fs: seq<Fold>, a: Address)
    requires !Live(d.projects, a)
    ensures a in FoldedRegistry(d, fs).redirects <==> a in d.redirects
    ensures a in d.redirects ==> FoldedRegistry(d, fs).redirects[a] == Follow(FoldMoves(d.projects, fs), d.redirects[a])
  {
    FoldMovesLive(d.projects, fs);
    hide FoldMoves, Folded;
  }

  /** What no stage puts anything at redirects in the end exactly when it still did after the merges. */
  lemma FinishedRetired(r: Registry, sources: set<string>, d: Draft, fs: seq<Fold>, a: Address)
    requires Staged(r, d, fs) && DraftGood(r, sources, d)
    requires a in r.redirects && PassedOver(d, fs, a)
    ensures var o := Finished(r, d, fs);
            && (a in o.registry.redirects <==> a in d.redirects)
            && (a in d.redirects ==> At(d.projects, d.redirects[a]) == At(r.projects, r.redirects[a]) ==>
                StillLeads(r, o.registry, a))
  {
    var folded := FoldedRegistry(d, fs);
    RetiredFacts(r, d, fs, a);
    FoldStage(r, d, fs);
    FoldMovesLive(d.projects, fs);
    FoldedRedirect(d, fs, a);
    hide FoldedRedirects, Carries;
    hide FoldsOk, Foldable, Folded, FoldMoves, Covers, FinalMapping, FinalRedirects, Densified, DenseMoves,
      DenseProjects, WellFormed, DraftGood, Staged, Existed;
    RetiredThroughDensify(r, folded, Carried(d.mapping, FoldMoves(d.projects, fs)), a);
  }

  lemma RetiredFacts(r: Registry, d: Draft, fs: seq<Fold>, a: Address)
    requires Staged(r, d, fs) && a in r.redirects
    ensures !Live(r.projects, a) && Existed(r, a) && a !in d.mapping && Live(r.projects, r.redirects[a])
    ensures a in d.redirects ==> Live(d.projects, d.redirects[a])
    ensures Carries(d.projects, FoldMoves(d.projects, fs), Folded(d.projects, fs), false)
  {
    FoldAddresses.FoldCarries(d.projects, fs);
    LiveExisted(r, a);
    ShadowsIffLive(r.projects, a);
  }

  /** A retired address that no stage of the plan puts anything at still redirects to what it led to, if and only if
      it is not at or under an artifact number that the merges assign; otherwise its redirect is gone. */
  lemma RetiredAddressKeptIff(r: Registry, plan: Plan, a: Address)
    requires Plannable(r, plan) && Grouped(r, plan).Ok?
    requires a in r.redirects && PassedOver(DraftOf(r, plan), FoldsOf(r, plan), a)
    ensures var now := Grouped(r, plan).value.registry;
            && (a in now.redirects <==> !MergeTally.NumberAssigned(r.projects, plan.specs, a))
            && (a in now.redirects ==> StillLeads(r, now, a))
            && (a in now.redirects && !a.ProjectAt? ==> Resolution.Reaches(Resolution.Resolve(now, a), now.projects, now.redirects[a]))
  {
    var d, fs := DraftOf(r, plan), FoldsOf(r, plan);
    StagesHold(r, plan);
    GroupedParts(r, plan);
    GroupingKeepsEverything(r, plan);
    assert RetiredKept(r, Sources(plan.specs), d, a);
    hide Grouped, DraftOf, FoldsOf, Finished, Staged, DraftGood, PassedOver, StillLeads, MergeSpecs,
      Resolution.Resolve;
    MergeTally.TakenOverIffAssigned(r, plan.specs, a);
    FinishedRetired(r, Sources(plan.specs), d, fs, a);
    var now := Grouped(r, plan).value.registry;
    if a in now.redirects && !a.ProjectAt? {
      Resolution.RedirectResolvesToTarget(now, a);
    }
  }

  // A redirect that a merge deletes: the source's artifact is given number 2 of the target, under which a version
  // once was.

  const MERGING_PLAN := Plan([Spec("t", None, ["s"])], [])

  const RETIRED_VERSION := VersionAt("t", 2, 3)

  function OneVersion(uid: nat): Artifact
  {
    Artifact(uid, 1, "", [], [Version(uid, 1, "", uid)], 1)
  }

  function MergingRegistry(): Registry
  {
    Registry([Project("t", "t", Some(2), [OneVersion(1)]), Project("s", "s", Some(2), [OneVersion(2)])],
             map[RETIRED_VERSION := VersionAt("t", 1, 1)])
  }

  ghost predicate FirstVersionsOnly(ps: seq<Project>)
  {
    forall a :: IsVersion(ps, a) ==> a.k == 1
  }

  lemma MergingIsSound()
    ensures Sound(MergingRegistry()) && FirstVersionsOnly(MergingRegistry().projects)
    ensures var r := MergingRegistry();
            && FindProject(r.projects, "t") == Some(r.projects[0]) && FindProject(r.projects, "s") == Some(r.projects[1])
  {
  }

  lemma MergingAssigns()
    ensures Plannable(MergingRegistry(), MERGING_PLAN)
    ensures MergeTally.NumberAssigned(MergingRegistry().projects, MERGING_PLAN.specs, RETIRED_VERSION)
  {
    MergingIsSound();
    hide Sound;
  }

  lemma MergingMerges()
    ensures var r := MergingRegistry();
            && Mergeable(r.projects, r.projects[0], r.projects[1])
            && FindProject(r.projects, "t").Some?
            && MergeSource(StartDraft(r), "t", "s") == Ok(Merged(StartDraft(r), r.projects[0], r.projects[1]))
  {
    MergingIsSound();
    hide Merged;
    assert !Collides(MergingRegistry().projects[0], MergingRegistry().projects[1]);
  }

  lemma StartOpens(r: Registry, spec: Spec)
    requires FindProject(r.projects, spec.id).Some? && spec.name.None?
    ensures StartDraft(r).(projects := OpenTarget(StartDraft(r).projects, spec)) == StartDraft(r)
  {
  }

  lemma MergingApplies()
    ensures var r := MergingRegistry();
            && Grouped(r, MERGING_PLAN).Ok? && FoldsOf(r, MERGING_PLAN) == []
            && DraftOf(r, MERGING_PLAN) == Merged(StartDraft(r), r.projects[0], r.projects[1])
            && Mergeable(r.projects, r.projects[0], r.projects[1])
  {
    var r := MergingRegistry();
    hide Merged, MergeSource, FindProject, Finished, Mergeable, StartDraft;
    MergingMerges();
    StartOpens(r, MERGING_PLAN.specs[0]);
    var d, t, s := StartDraft(r), r.projects[0], r.projects[1];
    var d' := Merged(d, t, s);
    assert MergeSources(d', "t", []) == Ok(d') && ["s"][1..] == [];
    assert MergeSources(d, "t", ["s"]) == Ok(d');
    assert MergeSpecs(d', []) == Ok(d') && MERGING_PLAN.specs[1..] == [];
    assert MergeSpecs(d, MERGING_PLAN.specs) == Ok(d');
    assert Folds(MergedRegistry(d'), []) == Ok([]);
  }

  lemma MergeIsFlat(ps: seq<Project>, t: Project, s: Project)
    requires Mergeable(ps, t, s) && FirstVersionsOnly(ps)
    ensures FirstVersionsOnly(Absorbed(ps, Enlarged(t, s), s))
  {
    forall b | IsVersion(Absorbed(ps, Enlarged(t, s), s), b) ensures b.k == 1 {
      var a := MergePredecessor(ps, t, s, b);
    }
  }

  lemma FoldNothingIsFlat(ps: seq<Project>)
    requires WellFormed(ps) && FirstVersionsOnly(ps)
    ensures FirstVersionsOnly(Folded(ps, []))
  {
    forall b | IsVersion(Folded(ps, []), b) ensures b.k == 1 {
      var a := FoldAddresses.FoldPredecessor(ps, [], b);
    }
  }

  lemma DenseIsFlat(ps: seq<Project>)
    requires WellFormed(ps) && FirstVersionsOnly(ps)
    ensures FirstVersionsOnly(DenseProjects(ps))
  {
    DenseCovers(ps);
    forall b | IsVersion(DenseProjects(ps), b) ensures b.k == 1 {
      var a :| IsVersion(ps, a) && Follow(DenseMoves(ps), a) == b;
    }
  }

  /** A merge without folds makes no artifact longer. */
  lemma FlatStaysFlat(ps: seq<Project>, t: Project, s: Project)
    requires Mergeable(ps, t, s) && FirstVersionsOnly(ps)
    ensures var merged := Absorbed(ps, Enlarged(t, s), s);
            && FirstVersionsOnly(merged) && FirstVersionsOnly(Folded(merged, []))
            && FirstVersionsOnly(DenseProjects(Folded(merged, [])))
  {
    var merged := Absorbed(ps, Enlarged(t, s), s);
    AbsorbedWellFormed(ps, t, s);
    MergeIsFlat(ps, t, s);
    hide Absorbed, Enlarged, WellFormed, FirstVersionsOnly, Mergeable;
    FoldNothingIsFlat(merged);
    FoldAddresses.FoldedWellFormed(merged, []);
    DenseIsFlat(Folded(merged, []));
  }

  lemma FlatPassesOver(d: Draft, a: Address)
    requires a.VersionAt? && a.k > 1 && FirstVersionsOnly(d.projects)
    requires FirstVersionsOnly(Folded(d.projects, [])) && FirstVersionsOnly(DenseProjects(Folded(d.projects, [])))
    ensures PassedOver(d, [], a)
  {
    hide Folded, DenseProjects;
    ShadowsIffLive(DenseProjects(Folded(d.projects, [])), a);
  }

  /** The retired version's redirect is gone, although nothing was ever put at its address. */
  lemma MergeCanDeleteRedirect()
    ensures var r := MergingRegistry();
            && Plannable(r, MERGING_PLAN) && Grouped(r, MERGING_PLAN).Ok?
            && RETIRED_VERSION in r.redirects
            && PassedOver(DraftOf(r, MERGING_PLAN), FoldsOf(r, MERGING_PLAN), RETIRED_VERSION)
            && RETIRED_VERSION !in Grouped(r, MERGING_PLAN).value.registry.redirects
  {
    hide Grouped, Sound, Mergeable, DraftOf, FoldsOf, FirstVersionsOnly, PassedOver, Plannable, Absorbed, Enlarged,
      Folded, DenseProjects, MergeTally.NumberAssigned, FindProject;
    var r := MergingRegistry();
    MergingIsSound();
    MergingAssigns();
    MergingApplies();
    var t, s := r.projects[0], r.projects[1];
    FlatStaysFlat(r.projects, t, s);
    FlatPassesOver(DraftOf(r, MERGING_PLAN), RETIRED_VERSION);
    RetiredAddressKeptIff(r, MERGING_PLAN, RETIRED_VERSION);
  }
}

/** Applying a grouping plan: merges, then folds, then renumbering. */
module Grouping {
  import opened Basics
  import Sorting
  import opened Registry
  import opened AddressMaps
  import opened Resolution
  import opened Densify
  import opened Merge
  import MergeTally
  import opened Fold
  import opened FoldAddresses
  import opened Gathering

  datatype Plan = Plan(specs: seq<Spec>, groups: seq<Group>)

  datatype Outcome = Outcome(registry: Registry, mapping: map<Address, Address>, links: seq<Link>)

  /** Numbers assigned and renumbered within one plan were never served. */
  predicate Existed(r: Registry, a: Address)
  {
    a.ProjectAt? || Resolve(r, a).Ok?
  }

  /** Redirects follow the folds; an address that moved and is no longer live becomes one. */
  function FoldedRedirects(redirects: map<Address, Address>, moves: map<Address, Address>, after: seq<Project>): map<Address, Address>
  {
    Followed(redirects, moves) + (map a | a in moves && !Live(after, a) :: moves[a])
  }

  /** Where an address ends up: what the folds moved follows the renumbering, not the entry that now has its
      spelling. */
  function Final(mapping: map<Address, Address>, dense: map<Address, Address>, a: Address): Address
  {
    if a in mapping then Follow(dense, mapping[a]) else Follow(dense, a)
  }

  function FinalMapping(r: Registry, mapping: map<Address, Address>, dense: map<Address, Address>): map<Address, Address>
  {
    map a | a in mapping.Keys + dense.Keys && Final(mapping, dense, a) != a && Existed(r, a) :: Final(mapping, dense, a)
  }

  function FinalRedirects(r: Registry, ps: seq<Project>, redirects: map<Address, Address>,
                          mapping: map<Address, Address>): map<Address, Address>
  {
    var all := redirects + (map a | a in mapping && !Shadows(ps, a) :: mapping[a]);
    map a | a in all && Existed(r, a) :: all[a]
  }

  /** The registry after the merges, in which the plan's groups are resolved. */
  function MergedRegistry(d: Draft): Registry
  {
    Registry(d.projects, d.redirects)
  }

  function FoldedRegistry(d: Draft, fs: seq<Fold>): Registry
  {
    var ps := Folded(d.projects, fs);
    Registry(ps, FoldedRedirects(d.redirects, FoldMoves(d.projects, fs), ps))
  }

  function Finished(r: Registry, d: Draft, fs: seq<Fold>): Outcome
  {
    var folded := FoldedRegistry(d, fs);
    var dense := Densified(folded);
    var mapping := FinalMapping(r, Carried(d.mapping, FoldMoves(d.projects, fs)), DenseMoves(folded.projects));
    Outcome(Registry(dense.projects, FinalRedirects(r, dense.projects, dense.redirects, mapping)), mapping, d.links)
  }

  function Grouped(r: Registry, plan: Plan): Result<Outcome, PlanError>
  {
    match MergeSpecs(StartDraft(r), plan.specs)
    case Err(e) => Err(e)
    case Ok(d) =>
      match Folds(MergedRegistry(d), plan.groups)
      case Err(e) => Err(e)
      case Ok(fs) =>
        match FirstError(fs, fs)
        case Some(e) => Err(e)
        case None => Ok(Finished(r, d, fs))
  }

  // What the stages give.

  /** A registry and a plan as the service promises to treat them. */
  ghost predicate Plannable(r: Registry, plan: Plan)
  {
    Sound(r) && SourcesAreNotTargets(plan.specs) && DistinctTitles(plan.groups)
  }

  function DraftOf(r: Registry, plan: Plan): Draft
    requires Grouped(r, plan).Ok?
  {
    MergeSpecs(StartDraft(r), plan.specs).value
  }

  function FoldsOf(r: Registry, plan: Plan): seq<Fold>
    requires Grouped(r, plan).Ok?
  {
    Folds(MergedRegistry(DraftOf(r, plan)), plan.groups).value
  }

  /** The stages before the renumbering, as far as the final step needs them. */
  ghost predicate Staged(r: Registry, d: Draft, fs: seq<Fold>)
  {
    && Sound(r)
    && DraftSound(r, d)
    && (forall a :: a in d.mapping ==> Live(r.projects, a) && !Live(d.projects, a))
    && FoldsOk(d.projects, fs)
    && Foldable(fs)
  }

  lemma StagesHold(r: Registry, plan: Plan)
    requires Plannable(r, plan) && Grouped(r, plan).Ok?
    ensures Staged(r, DraftOf(r, plan), FoldsOf(r, plan))
    ensures DraftGood(r, Sources(plan.specs), DraftOf(r, plan))
    ensures Grouped(r, plan).value == Finished(r, DraftOf(r, plan), FoldsOf(r, plan))
  {
    hide Finished, FirstError, Folds, MergeSpecs, FoldsOk, Foldable, DistinctTitles, DistinctFoldTitles, Grouped,
      DraftOf, FoldsOf, SourcesAreNotTargets, DraftGood, Sound;
    var d, fs := DraftOf(r, plan), FoldsOf(r, plan);
    GroupedParts(r, plan);
    MergesKeepEverything(r, plan.specs);
    GoodMeansUnmoved(r, Sources(plan.specs), d);
    FoldsAreOk(MergedRegistry(d), plan.groups);
    AcceptedIsFoldable(d.projects, fs);
  }

  /** What a plan that is applied has computed on the way. */
  lemma GroupedParts(r: Registry, plan: Plan)
    requires Grouped(r, plan).Ok?
    ensures MergeSpecs(StartDraft(r), plan.specs) == Ok(DraftOf(r, plan))
    ensures Folds(MergedRegistry(DraftOf(r, plan)), plan.groups) == Ok(FoldsOf(r, plan))
    ensures FirstError(FoldsOf(r, plan), FoldsOf(r, plan)) == None
    ensures Grouped(r, plan) == Ok(Finished(r, DraftOf(r, plan), FoldsOf(r, plan)))
  {
    hide Finished, FirstError, Folds, MergeSpecs, StartDraft, MergedRegistry;
  }

  lemma GoodMeansUnmoved(r: Registry, sources: set<string>, d: Draft)
    requires DraftGood(r, sources, d)
    ensures DraftSound(r, d) && forall a :: a in d.mapping ==> Live(r.projects, a) && !Live(d.projects, a)
  {
    hide DraftSound;
  }

  lemma FoldStage(r: Registry, d: Draft, fs: seq<Fold>)
    requires Staged(r, d, fs)
    ensures var moves, after := FoldMoves(d.projects, fs), Folded(d.projects, fs);
            && WellFormed(after)
            && Carries(r.projects, Carried(d.mapping, moves), after, false)
            && Covers(r.projects, Carried(d.mapping, moves), after)
            && EndsLive(Carried(d.mapping, moves), after)
            && EndsLive(FoldedRedirects(d.redirects, moves, after), after)
  {
    var moves, after := FoldMoves(d.projects, fs), Folded(d.projects, fs);
    hide WellFormed, FoldsOk, Foldable, Folded, FoldMoves, Carries, Covers, Sound;
    FoldedWellFormed(d.projects, fs);
    FoldCarries(d.projects, fs);
    FoldCovers(d.projects, fs);
    FoldMovesLive(d.projects, fs);
    forall a | a in d.mapping ensures a !in moves {
      assert !Live(d.projects, a);
    }
    hide Live, EndsLive;
    CarriedCarries(r.projects, d.mapping, d.projects, moves, after, false);
    CarriedCovers(r.projects, d.mapping, d.projects, moves, after);
    CarriedEndsLive(d.mapping, moves, d.projects, after, false);
    CarriedEndsLive(d.redirects, moves, d.projects, after, false);
    FoldedRedirectsEndLive(d.redirects, moves, d.projects, after);
  }

  lemma FoldMovesLive(ps: seq<Project>, fs: seq<Fold>)
    ensures forall a :: a in FoldMoves(ps, fs) ==> Live(ps, a)
  {
  }

  lemma FoldedRedirectsEndLive(redirects: map<Address, Address>, moves: map<Address, Address>,
                               before: seq<Project>, after: seq<Project>)
    requires EndsLive(redirects, before) && Carries(before, moves, after, false)
    requires forall a :: a in moves ==> Live(before, a)
    ensures EndsLive(FoldedRedirects(redirects, moves, after), after)
  {
    var m := FoldedRedirects(redirects, moves, after);
    forall a | a in m ensures Live(after, m[a]) && (m[a].ProjectAt? ==> a.ProjectAt?) {
      CarriesKind(before, moves, after, false, if a in moves && !Live(after, a) then a else redirects[a]);
    }
  }

  /** In a sound registry a live artifact or version address existed, and so did one that redirects. */
  lemma LiveExisted(r: Registry, a: Address)
    requires Sound(r) && (Live(r.projects, a) || a in r.redirects)
    ensures Existed(r, a)
  {
    if !a.ProjectAt? {
      if a in r.redirects {
        RedirectResolvesToTarget(r, a);
      } else {
        LiveResolvesToItself(r, a, |r.redirects| + 1);
      }
    }
  }

  lemma FinalFollows(r: Registry, mapping: map<Address, Address>, dense: map<Address, Address>, a: Address)
    requires Sound(r) && Live(r.projects, a)
    ensures Follow(FinalMapping(r, mapping, dense), a) == Follow(dense, Follow(mapping, a))
  {
    LiveExisted(r, a);
  }

  /** The final map carries every old address, through all three stages, to where its thing now is. */
  lemma FinalCarries(r: Registry, m: map<Address, Address>, folded: seq<Project>)
    requires Sound(r) && WellFormed(folded)
    requires Carries(r.projects, m, folded, false) && Covers(r.projects, m, folded)
    ensures Carries(r.projects, FinalMapping(r, m, DenseMoves(folded)), DenseProjects(folded), false)
    ensures Covers(r.projects, FinalMapping(r, m, DenseMoves(folded)), DenseProjects(folded))
  {
    var dense, after := DenseMoves(folded), DenseProjects(folded);
    hide DenseMoves, DenseProjects, WellFormed, FinalMapping, Sound, At;
    DenseCarries(folded);
    DenseCovers(folded);
    forall a | Live(r.projects, a)
      ensures Follow(FinalMapping(r, m, dense), a) == Follow(dense, Follow(m, a))
    {
      FinalFollows(r, m, dense, a);
    }
    forall c | IsVersion(after, c)
      ensures exists a :: IsVersion(r.projects, a) && Follow(FinalMapping(r, m, dense), a) == c
    {
      var b :| IsVersion(folded, b) && Follow(dense, b) == c;
      var a :| IsVersion(r.projects, a) && Follow(m, a) == b;
      assert Follow(FinalMapping(r, m, dense), a) == c;
    }
  }

  lemma FinalMappingEndsLive(r: Registry, m: map<Address, Address>, folded: seq<Project>)
    requires WellFormed(folded) && EndsLive(m, folded)
    ensures EndsLive(FinalMapping(r, m, DenseMoves(folded)), DenseProjects(folded))
  {
    var dense, after := DenseMoves(folded), DenseProjects(folded);
    DenseCarries(folded);
    var f := FinalMapping(r, m, dense);
    forall a | a in f ensures Live(after, f[a]) && (f[a].ProjectAt? ==> a.ProjectAt?) {
      CarriesKind(folded, dense, after, true, if a in m then m[a] else a);
    }
  }

  lemma FinalRedirectsSound(r: Registry, ps: seq<Project>, redirects: map<Address, Address>, mapping: map<Address, Address>)
    requires WellFormed(ps) && EndsLive(redirects, ps) && EndsLive(mapping, ps)
    requires Unshadowed(Registry(ps, redirects))
    ensures Sound(Registry(ps, FinalRedirects(r, ps, redirects, mapping)))
  {
  }

  // The promises of grouping.

  /** The new registry is sound and dense, and the mapping leads every old address to the same thing. */
  lemma GroupingKeepsEverything(r: Registry, plan: Plan)
    requires Plannable(r, plan) && Grouped(r, plan).Ok?
    ensures var o := Grouped(r, plan).value;
            && Sound(o.registry)
            && (forall p :: p in o.registry.projects ==> Dense(p))
            && Carries(r.projects, o.mapping, o.registry.projects, false)
            && Covers(r.projects, o.mapping, o.registry.projects)
  {
    StagesHold(r, plan);
    FinishedGood(r, DraftOf(r, plan), FoldsOf(r, plan));
  }

  lemma FinishedGood(r: Registry, d: Draft, fs: seq<Fold>)
    requires Staged(r, d, fs)
    ensures var o := Finished(r, d, fs);
            && Sound(o.registry)
            && (forall p :: p in o.registry.projects ==> Dense(p))
            && Carries(r.projects, o.mapping, o.registry.projects, false)
            && Covers(r.projects, o.mapping, o.registry.projects)
  {
    var folded := FoldedRegistry(d, fs);
    var m := Carried(d.mapping, FoldMoves(d.projects, fs));
    FoldStage(r, d, fs);
    hide Staged, FoldMoves, Folded, FoldedRedirects, WellFormed, Carries, Covers, EndsLive, Dense;
    DensifiedSound(folded);
    FinalCarries(r, m, folded.projects);
    FinalMappingEndsLive(r, m, folded.projects);
    var dense := Densified(folded);
    FinalRedirectsSound(r, dense.projects, dense.redirects, FinalMapping(r, m, DenseMoves(folded.projects)));
  }

  /** The address an old artifact or version address has now resolves, and to the same version, or to the same
      artifact or one that took over a version of it. The old address itself is unchanged, or is now another live
      entry's, or redirects to where its thing went. */
  lemma OldAddressesResolve(r: Registry, plan: Plan, a: Address)
    requires Plannable(r, plan) && Grouped(r, plan).Ok?
    requires Live(r.projects, a) && !a.ProjectAt?
    ensures var o := Grouped(r, plan).value;
            var b := Follow(o.mapping, a);
            && Reaches(Resolve(o.registry, b), o.registry.projects, b)
            && Live(o.registry.projects, b)
            && Leads(At(r.projects, a).value, At(o.registry.projects, b).value, false)
            && (|| a == b
                || Live(o.registry.projects, a)
                || (&& a in o.registry.redirects && o.registry.redirects[a] == b
                    && Reaches(Resolve(o.registry, a), o.registry.projects, b)))
  {
    hide Grouped, Plannable, Finished, DraftOf, FoldsOf, Resolve, Leads, Lookup, FindProject;
    var o := Grouped(r, plan).value;
    var b := Follow(o.mapping, a);
    GroupingKeepsEverything(r, plan);
    CarriesKind(r.projects, o.mapping, o.registry.projects, false, a);
    ResolvesToItself(o.registry, b);
    if a != b && !Live(o.registry.projects, a) {
      MovedRedirects(r, plan, a);
      RedirectResolvesToTarget(o.registry, a);
    }
  }

  lemma ResolvesToItself(r: Registry, b: Address)
    requires Sound(r) && Live(r.projects, b) && !b.ProjectAt?
    ensures Reaches(Resolve(r, b), r.projects, b)
  {
    LiveResolvesToItself(r, b, |r.redirects| + 1);
  }

  /** An old address that has moved and is no longer live redirects to where it has moved. */
  lemma MovedRedirects(r: Registry, plan: Plan, a: Address)
    requires Plannable(r, plan) && Grouped(r, plan).Ok? && Live(r.projects, a) && !a.ProjectAt?
    requires var o := Grouped(r, plan).value; a in o.mapping && !Live(o.registry.projects, a)
    ensures var o := Grouped(r, plan).value; a in o.registry.redirects && o.registry.redirects[a] == o.mapping[a]
  {
    var o := Grouped(r, plan).value;
    StagesHold(r, plan);
    FinishedParts(r, DraftOf(r, plan), FoldsOf(r, plan));
    ShadowsUnlessZero(r, plan, a);
    LiveExisted(r, a);
    hide Plannable, Grouped, DraftOf, FoldsOf, FinalMapping, DenseProjects, Folded, Sound, Staged, DraftGood, Existed,
      Live;
  }

  /** A live address is no version 0, so where it is not live nothing shadows it. */
  lemma ShadowsUnlessZero(r: Registry, plan: Plan, a: Address)
    requires Grouped(r, plan).Ok? && Live(r.projects, a) && !Live(Grouped(r, plan).value.registry.projects, a)
    ensures !Shadows(Grouped(r, plan).value.registry.projects, a)
  {
    ShadowsIffLive(Grouped(r, plan).value.registry.projects, a);
  }

  /** Every old version is in the new registry, under its date, at exactly one address, and nothing else is. */
  lemma GroupingConservesVersions(r: Registry, plan: Plan)
    requires Plannable(r, plan) && Grouped(r, plan).Ok? && VersionsOnce(r.projects)
    ensures var after := Grouped(r, plan).value.registry.projects;
            && VersionsOnce(after)
            && forall u, d :: (exists a :: At(r.projects, a) == Some(AVersion(u, d)))
                              <==> (exists b :: At(after, b) == Some(AVersion(u, d)))
  {
    var o := Grouped(r, plan).value;
    GroupingKeepsEverything(r, plan);
    VersionsConserved(r.projects, o.mapping, o.registry.projects, false);
  }

  /** The finished mapping sends an address through the merges, the folds and the renumbering in turn. */
  lemma FinishedFollows(r: Registry, d: Draft, fs: seq<Fold>, a: Address)
    requires Sound(r) && Live(r.projects, a) && (a in d.mapping ==> !Live(d.projects, a))
    ensures Follow(Finished(r, d, fs).mapping, a) ==
            Follow(DenseMoves(Folded(d.projects, fs)), Follow(FoldMoves(d.projects, fs), Follow(d.mapping, a)))
  {
    var moves := FoldMoves(d.projects, fs);
    FoldMovesLive(d.projects, fs);
    FinalFollows(r, Carried(d.mapping, moves), DenseMoves(Folded(d.projects, fs)), a);
    hide Sound, FoldMoves, DenseMoves, Folded, Live, FinalMapping;
    assert Follow(Carried(d.mapping, moves), a) == Follow(moves, Follow(d.mapping, a));
  }

  lemma FoldKeepsRevision(ps: seq<Project>, fs: seq<Fold>, b: Address)
    requires WellFormed(ps) && FoldsOk(ps, fs) && IsVersion(ps, b)
    ensures IsVersion(Folded(ps, fs), Follow(FoldMoves(ps, fs), b))
    ensures RevisionAt(Folded(ps, fs), Follow(FoldMoves(ps, fs), b)) == RevisionAt(ps, b)
  {
    VersionCarried(ps, fs, b);
  }

  lemma FoldAndDensifyKeepRevision(r: Registry, d: Draft, fs: seq<Fold>, a: Address)
    requires Staged(r, d, fs) && IsVersion(r.projects, a)
    ensures RevisionAt(Finished(r, d, fs).registry.projects, Follow(Finished(r, d, fs).mapping, a))
            == RevisionAt(d.projects, Follow(d.mapping, a))
  {
    var b := Follow(d.mapping, a);
    CarriesKind(r.projects, d.mapping, d.projects, true, a);
    assert IsVersion(d.projects, b);
    assert a in d.mapping ==> !Live(d.projects, a);
    FinishedFollows(r, d, fs, a);
    FoldKeepsRevision(d.projects, fs, b);
    FoldedWellFormed(d.projects, fs);
    DenseKeepsRevision(Folded(d.projects, fs), Follow(FoldMoves(d.projects, fs), b));
  }

  /** Folding and renumbering never take a version to another project. */
  lemma LaterStagesKeepProject(ps: seq<Project>, fs: seq<Fold>, b: Address)
    requires Live(ps, b)
    ensures Follow(DenseMoves(Folded(ps, fs)), Follow(FoldMoves(ps, fs), b)).p == b.p
  {
    var c := Follow(FoldMoves(ps, fs), b);
    assert c == FoldTarget(ps, fs, b) && c.p == b.p;
    hide FoldMoves, FoldTarget, Folded;
    assert c in DenseMoves(Folded(ps, fs)) ==> DenseMoves(Folded(ps, fs))[c] == DenseTarget(Folded(ps, fs), c);
  }

  /** Every old version keeps its revision, except that one of a project merged away is found under the name that a
      link from its new project leads back from. */
  lemma GroupingKeepsRevisions(r: Registry, plan: Plan, a: Address)
    requires Plannable(r, plan) && Grouped(r, plan).Ok? && IsVersion(r.projects, a)
    ensures var o := Grouped(r, plan).value;
            var b := Follow(o.mapping, a);
            var was, now := RevisionAt(r.projects, a).value, RevisionAt(o.registry.projects, b);
            if a.p in Sources(plan.specs) then
              now == Some(Prefixed(a.p, was)) && Link(b.p, Prefixed(a.p, was), a.p, was) in o.links
            else now == Some(was)
  {
    var d, fs := DraftOf(r, plan), FoldsOf(r, plan);
    StagesHold(r, plan);
    GroupedParts(r, plan);
    assert RevisionKept(r, d, a);
    hide Staged, DraftGood, Plannable, Grouped, RevisionAt, DraftOf, FoldsOf, Finished;
    FoldAndDensifyKeepRevision(r, d, fs, a);
    MovedToLive(r, d, fs, a);
    MergeTally.MovedIffSource(r, plan.specs, a);
  }

  lemma MovedToLive(r: Registry, d: Draft, fs: seq<Fold>, a: Address)
    requires Staged(r, d, fs) && Live(r.projects, a)
    ensures Follow(Finished(r, d, fs).mapping, a).p == Follow(d.mapping, a).p
  {
    hide FoldMoves, DenseMoves, Folded, WellFormed, EndsLive, Covers, FoldsOk, Foldable, Finished;
    FinishedFollows(r, d, fs, a);
    LaterStagesKeepProject(d.projects, fs, Follow(d.mapping, a));
  }

  /** An artifact's new address leads to an artifact that holds some version of it, unless after the merges it is a
      keeper whose every version another group lists; then it leads to that keeper, which holds none of them. */
  lemma GroupingSharesUnlessEmptied(r: Registry, plan: Plan, a: Address)
    requires Plannable(r, plan) && Grouped(r, plan).Ok? && VersionsOnce(r.projects)
    requires a.ArtifactAt? && Live(r.projects, a)
    ensures var o, merged := Grouped(r, plan).value, Follow(DraftOf(r, plan).mapping, a);
            var b := Follow(o.mapping, a);
            && merged.ArtifactAt? && Live(DraftOf(r, plan).projects, merged)
            && b.ArtifactAt? && Live(o.registry.projects, b)
            && (At(r.projects, a).value.holds !! At(o.registry.projects, b).value.holds
                <==> EmptiedKeeper(DraftOf(r, plan).projects, FoldsOf(r, plan), merged.p, merged.n))
  {
    hide Staged, DraftGood, Plannable, Grouped, RevisionAt, DraftOf, FoldsOf, Finished;
    StagesHold(r, plan);
    FinishedShares(r, DraftOf(r, plan), FoldsOf(r, plan), a);
  }

  lemma FinishedShares(r: Registry, d: Draft, fs: seq<Fold>, a: Address)
    requires Staged(r, d, fs) && VersionsOnce(r.projects) && a.ArtifactAt? && Live(r.projects, a)
    ensures var o, merged := Finished(r, d, fs), Follow(d.mapping, a);
            var b := Follow(o.mapping, a);
            && merged.ArtifactAt? && Live(d.projects, merged)
            && b.ArtifactAt? && Live(o.registry.projects, b)
            && (At(r.projects, a).value.holds !! At(o.registry.projects, b).value.holds
                <==> EmptiedKeeper(d.projects, fs, merged.p, merged.n))
  {
    hide WellFormed, FoldsOk, Foldable, Folded, FoldMoves, FoldTarget, DenseMoves, DenseProjects, Carries, Covers,
      EmptiedKeeper, EndsLive, Sound, VersionsOnce, At, Finished;
    var merged, folded := Follow(d.mapping, a), Folded(d.projects, fs);
    StrictlyCarried(r.projects, d.mapping, d.projects, a);
    VersionsConserved(r.projects, d.mapping, d.projects, true);
    SharesUnlessEmptied(d.projects, fs, merged);
    var moved := FoldTarget(d.projects, fs, merged);
    FoldedWellFormed(d.projects, fs);
    DenseCarries(folded);
    StrictlyCarried(folded, DenseMoves(folded), DenseProjects(folded), moved);
    FinishedFollows(r, d, fs, a);
    FoldMovesFollow(d.projects, fs, merged);
    FinishedParts(r, d, fs);
  }

  lemma FinishedParts(r: Registry, d: Draft, fs: seq<Fold>)
    ensures Finished(r, d, fs).registry.projects == DenseProjects(Folded(d.projects, fs))
  {
  }

  lemma FoldMovesFollow(ps: seq<Project>, fs: seq<Fold>, a: Address)
    requires Live(ps, a)
    ensures Follow(FoldMoves(ps, fs), a) == FoldTarget(ps, fs, a)
  {
  }

  lemma StrictlyCarried(before: seq<Project>, m: map<Address, Address>, after: seq<Project>, a: Address)
    requires Carries(before, m, after, true) && Live(before, a)
    ensures At(after, Follow(m, a)) == At(before, a)
    ensures a.ArtifactAt? ==> Follow(m, a).ArtifactAt?
  {
    hide Lookup, FindProject;
  }

  /** Each artifact a fold rebuilds ends with its versions in order of date, then of the numbers they had. */
  lemma FoldedVersionsInOrder(r: Registry, plan: Plan, f: Fold)
    requires Plannable(r, plan) && Grouped(r, plan).Ok?
    requires f in FoldsOf(r, plan) && !TitleOnly(FoldsOf(r, plan), f)
    ensures var ps, fs := Grouped(r, plan).value.registry.projects, FoldsOf(r, plan);
            var n := DenseNumber(Folded(DraftOf(r, plan).projects, fs), f.project, Keeper(f));
            && Lookup(ps, f.project, n).Some?
            && Lookup(ps, f.project, n).value.versions == Resequenced(Ordered(fs, f))
            && Lookup(ps, f.project, n).value.current == |Ordered(fs, f)|
            && Sorting.Sorted(RowKey, Ordered(fs, f))
            && forall row :: row in Ordered(fs, f) ==> TrueRow(DraftOf(r, plan).projects, f.project, row)
  {
    var d, fs := DraftOf(r, plan), FoldsOf(r, plan);
    StagesHold(r, plan);
    FoldedWellFormed(d.projects, fs);
    KeeperRebuilt(d.projects, fs, f);
    DenseLookup(Folded(d.projects, fs), f.project, Keeper(f));
    RebuiltInDateOrder(fs, f);
    forall row | row in Ordered(fs, f) ensures TrueRow(d.projects, f.project, row) {
      OrderedRow(d.projects, fs, f, row);
    }
  }
}

/** What a grouping plan leaves of each artifact. */
module GroupedArtifacts {
  import opened Basics
  import opened Sorting
  import opened Registry
  import opened AddressMaps
  import opened Resolution
  import opened Densify
  import opened Merge
  import opened Fold
  import opened FoldAddresses
  import opened Gathering
  import opened Grouping
  import opened GroupedOrder

  // The artifacts of a group.

  ghost predicate Ascends(xs: seq<Artifact>)
  {
    forall i, j :: 0 <= i < j < |xs| ==> xs[i].number <= xs[j].number
  }

  lemma ByNumberAscends(xs: seq<Artifact>)
    ensures Ascends(ByNumber(xs))
  {
    SortBySorts(NumberKey, xs);
    forall i, j | 0 <= i < j < |xs| ensures ByNumber(xs)[i].number <= ByNumber(xs)[j].number {
      assert NumberKey(ByNumber(xs)[i]).Le(NumberKey(ByNumber(xs)[j]));
    }
  }

  lemma {:induction false} GatheredAscend(r: Registry, s: Gathered, fs: seq<Fold>, groups: seq<Group>)
    requires GatherGroups(r, s, fs, groups).Ok? && forall f :: f in fs ==> Ascends(f.members)
    ensures forall f :: f in GatherGroups(r, s, fs, groups).value ==> Ascends(f.members)
    decreases |groups|
  {
    if groups != [] {
      hide GatherRefs, Ascends, ByNumber;
      var g := groups[0];
      if FindProject(r.projects, g.project).None? {
        GatheredAscend(r, s, fs, groups[1..]);
      } else {
        var s' := GatherRefs(r, g, s.(members := [], picked := []), g.refs).value;
        ByNumberAscends(s'.members);
        GatheredAscend(r, s', fs + if s'.members == [] then [] else [Fold(g.project, g.title, ByNumber(s'.members), s'.picked)],
                       groups[1..]);
      }
    }
  }

  /** The members of a fold are in order of their numbers, so that its keeper is the one with the smallest. */
  lemma KeeperIsSmallest(r: Registry, groups: seq<Group>, f: Fold)
    requires DistinctTitles(groups) && Folds(r, groups).Ok? && f in Folds(r, groups).value
    ensures forall i, j :: 0 <= i < j < |f.members| ==> f.members[i].number < f.members[j].number
    ensures forall x :: x in f.members ==> Lookup(r.projects, f.project, x.number) == Some(x)
    ensures Claims(f, f.project, Keeper(f)) && forall n :: Claims(f, f.project, n) ==> Keeper(f) <= n
  {
    hide GatherGroups, Lookup;
    GatheredAscend(r, Gathered(map[], map[], [], []), [], groups);
    FoldsAreOk(r, groups);
    assert Ascends(f.members) && FoldOk(r.projects, f);
    KeeperClaims(r.projects, Folds(r, groups).value, f, f);
    forall n | Claims(f, f.project, n) ensures Keeper(f) <= n {
      assert f.members[PositionOf(f.members, n)].number == n;
    }
  }

  lemma {:induction false} SessionsJoin(xs: seq<Artifact>, ys: seq<Artifact>)
    ensures AllSessions(xs + ys) == AllSessions(xs) + AllSessions(ys)
  {
    if xs == [] {
      assert xs + ys == ys;
    } else {
      assert (xs + ys)[1..] == xs[1..] + ys;
      SessionsJoin(xs[1..], ys);
    }
  }

  /** Each member's own sessions stay together, between those of the members with smaller numbers and with greater. */
  lemma SessionsByMember(f: Fold, i: nat)
    requires i < |f.members|
    ensures AllSessions(f.members) ==
            AllSessions(f.members[..i]) + f.members[i].sessions + AllSessions(f.members[i + 1..])
  {
    assert f.members == f.members[..i] + ([f.members[i]] + f.members[i + 1..]);
    SessionsJoin(f.members[..i], [f.members[i]] + f.members[i + 1..]);
    SessionsJoin([f.members[i]], f.members[i + 1..]);
    assert AllSessions([f.members[i]]) == f.members[i].sessions + AllSessions([]);
  }

  // The artifacts that other groups take versions of.

  /** Every version of artifact `n` is listed by some group. */
  ghost predicate Emptied(ps: seq<Project>, fs: seq<Fold>, p: string, n: nat)
  {
    && Lookup(ps, p, n).Some? && ClaimingFold(fs, p, n).None?
    && forall k :: 1 <= k <= |Lookup(ps, p, n).value.versions| ==> PickingFold(fs, p, n, k).Some?
  }

  lemma EmptiedTarget(ps: seq<Project>, fs: seq<Fold>, a: Address, i: nat)
    requires WellFormed(ps) && FoldsOk(ps, fs) && a.ArtifactAt? && Emptied(ps, fs, a.p, a.n)
    requires i < |fs| && PicksFrom(fs[i], a.p, a.n) && forall j :: 0 <= j < i ==> !PicksFrom(fs[j], a.p, a.n)
    ensures FoldTarget(ps, fs, a) == ArtifactAt(a.p, Keeper(fs[i]))
  {
    hide FoldsOk, WellFormed, PickingFold, PicksFrom;
    FirstTaking(fs, a.p, a.n, i);
    var x := Lookup(ps, a.p, a.n).value;
    LookupWellVersioned(ps, a.p, a.n);
    var rest := Unpicked(fs, a.p, x);
    if rest != [] {
      UnpickedMember(fs, a.p, x, rest[0]);
    }
  }

  lemma {:induction false} FirstTaking(fs: seq<Fold>, p: string, n: nat, i: nat)
    requires i < |fs| && PicksFrom(fs[i], p, n) && forall j :: 0 <= j < i ==> !PicksFrom(fs[j], p, n)
    ensures TakingFold(fs, p, n) == Some(fs[i])
  {
    if i > 0 {
      hide PicksFrom;
      assert !PicksFrom(fs[0], p, n);
      forall j | 0 <= j < i - 1 ensures !PicksFrom(fs[1..][j], p, n) {
        assert fs[1..][j] == fs[j + 1];
      }
      FirstTaking(fs[1..], p, n, i - 1);
    }
  }

  /** An artifact that groups list every version of, but not itself, leads where the artifact of the first of those
      groups is. */
  lemma EmptiedFollowsFirst(r: Registry, plan: Plan, a: Address, b: Address, i: nat)
    requires Plannable(r, plan) && Grouped(r, plan).Ok?
    requires a.ArtifactAt? && Live(r.projects, a) && Live(r.projects, b) && MergedTo(r, plan, a).ArtifactAt?
    requires var m, fs := MergedTo(r, plan, a), FoldsOf(r, plan);
             && Emptied(DraftOf(r, plan).projects, fs, m.p, m.n)
             && i < |fs| && PicksFrom(fs[i], m.p, m.n) && (forall j :: 0 <= j < i ==> !PicksFrom(fs[j], m.p, m.n))
             && MergedTo(r, plan, b) == ArtifactAt(m.p, Keeper(fs[i]))
    ensures NowAt(r, plan, a) == NowAt(r, plan, b)
  {
    hide Grouped, Plannable, DraftOf, FoldsOf, WellFormed, FoldsOk, Foldable, Folded, DenseMoves, DenseProjects, Emptied;
    hide PicksFrom, Lookup;
    var ps, fs := DraftOf(r, plan).projects, FoldsOf(r, plan);
    var m := MergedTo(r, plan, a);
    Stages(r, plan, a);
    Stages(r, plan, b);
    EmptiedTarget(ps, fs, m, i);
    InProject(fs[i], m.p, m.n);
    KeeperClaims(ps, fs, fs[i], fs[i]);
    Claimer(ps, fs, fs[i], m.p, Keeper(fs[i]));
  }

  lemma InProject(f: Fold, p: string, n: nat)
    requires PicksFrom(f, p, n)
    ensures f.project == p
  {
  }

  /** An artifact that keeps some version when groups take others stays what it is; its last version becomes current. */
  lemma SplitArtifactStays(r: Registry, plan: Plan, a: Address)
    requires Plannable(r, plan) && Grouped(r, plan).Ok?
    requires a.ArtifactAt? && Live(r.projects, a) && MergedTo(r, plan, a).ArtifactAt?
    requires var m, fs := MergedTo(r, plan, a), FoldsOf(r, plan);
             ClaimingFold(fs, m.p, m.n).None? && TakenFrom(fs, m.p, m.n) && !Emptied(DraftOf(r, plan).projects, fs, m.p, m.n)
    ensures var b := NowAt(r, plan, a);
            b.ArtifactAt? && IsRest(Lookup(Grouped(r, plan).value.registry.projects, b.p, b.n), At(r.projects, a))
  {
    hide Grouped, Plannable, DraftOf, FoldsOf, WellFormed, FoldsOk, Foldable, Folded, FoldTarget, DenseMoves, DenseProjects;
    hide Emptied, Lookup, ClaimingFold, TakenFrom, DenseNumber;
    var ps, fs := DraftOf(r, plan).projects, FoldsOf(r, plan);
    Stages(r, plan, a);
    SplitSettles(ps, fs, MergedTo(r, plan, a));
    DenseFollows(Folded(ps, fs), MergedTo(r, plan, a));
    DenseLookup(Folded(ps, fs), MergedTo(r, plan, a).p, MergedTo(r, plan, a).n);
  }

  /** The artifact is the one it was, as far as its identity, title and sessions go, and its last version is current. */
  predicate IsRest(found: Option<Artifact>, was: Option<Thing>)
  {
    && found.Some? && was.Some? && was.value.AnArtifact?
    && found.value.uid == was.value.uid && found.value.title == was.value.title
    && found.value.sessions == was.value.sessions
    && found.value.current == |found.value.versions| > 0
  }

  lemma SplitSettles(ps: seq<Project>, fs: seq<Fold>, a: Address)
    requires WellFormed(ps) && a.ArtifactAt? && Live(ps, a) && ClaimingFold(fs, a.p, a.n).None? && TakenFrom(fs, a.p, a.n)
    requires !Emptied(ps, fs, a.p, a.n)
    ensures FoldTarget(ps, fs, a) == a && IsRest(Lookup(Folded(ps, fs), a.p, a.n), At(ps, a))
  {
    var x := Lookup(ps, a.p, a.n).value;
    var k :| 1 <= k <= |x.versions| && PickingFold(fs, a.p, a.n, k).None?;
    LookupWellVersioned(ps, a.p, a.n);
    UnpickedMember(fs, a.p, x, Row(a.n, k, x.versions[k - 1]));
    hide Unpicked, PickingFold, ClaimingFold, TakingFold;
    FoldedLookup(ps, fs, a.p, a.n);
  }

  // Refusals.

  /** The group folds an artifact away of which another group lists a version. */
  ghost predicate ListedElsewhere(fs: seq<Fold>, f: Fold)
  {
    exists g, n, k :: g in fs && g != f && g.project == f.project
                      && Claims(f, f.project, n) && n != Keeper(f) && Picks(g, f.project, n, k)
  }

  /** The group gains or loses versions, and none is left for it. */
  ghost predicate LeftEmpty(ps: seq<Project>, fs: seq<Fold>, f: Fold)
  {
    !TitleOnly(fs, f) && forall a :: IsVersion(ps, a) ==> !GoesTo(fs, f, a)
  }

  lemma ElsewhereIff(ps: seq<Project>, fs: seq<Fold>, f: Fold)
    requires FoldsOk(ps, fs) && DistinctFoldTitles(fs) && f in fs
    ensures ListedElsewhere(fs, f) <==> FoldError(fs, f) == Some(FoldedAwayButListed)
  {
    hide Ordered, TitleOnly, FoldsOk, DistinctFoldTitles;
    if ListedElsewhere(fs, f) {
      var g, n, k :| g in fs && g != f && g.project == f.project
                     && Claims(f, f.project, n) && n != Keeper(f) && Picks(g, f.project, n, k);
      var pick :| pick in g.picked && pick.artifact.number == n && pick.k == k;
      var x := f.members[PositionOf(f.members, n)];
      TitledApart(fs, f, g);
      assert x in f.members && x.number == n;
    }
    if FoldError(fs, f) == Some(FoldedAwayButListed) {
      var x, g, pick :| x in f.members && x.number != Keeper(f) && g in fs && pick in g.picked
                        && g.project == f.project && pick.artifact.number == x.number && g.title != f.title;
      assert Claims(f, f.project, x.number) && Picks(g, f.project, x.number, pick.k);
    }
  }

  lemma TitledApart(fs: seq<Fold>, f: Fold, g: Fold)
    requires DistinctFoldTitles(fs) && f in fs && g in fs && f != g && f.project == g.project
    ensures f.title != g.title
  {
    var i :| 0 <= i < |fs| && fs[i] == f;
    var j :| 0 <= j < |fs| && fs[j] == g;
    assert if i < j then fs[i].title != fs[j].title else fs[j].title != fs[i].title;
  }

  lemma EmptyIff(ps: seq<Project>, fs: seq<Fold>, f: Fold)
    requires WellFormed(ps) && FoldsOk(ps, fs) && f in fs
    ensures LeftEmpty(ps, fs, f) <==> !TitleOnly(fs, f) && Ordered(fs, f) == []
  {
    hide WellFormed, FoldsOk, TitleOnly, Ordered, Claims, Picks, PickingFold;
    if Ordered(fs, f) != [] {
      RowGoes(ps, fs, f, Ordered(fs, f)[0]);
    }
    if a :| IsVersion(ps, a) && GoesTo(fs, f, a) {
      RowPlaced(ps, fs, f, a.n, a.k);
    }
  }

  lemma RowGoes(ps: seq<Project>, fs: seq<Fold>, f: Fold, row: Row)
    requires WellFormed(ps) && FoldsOk(ps, fs) && f in fs && row in Ordered(fs, f)
    ensures var a := VersionAt(f.project, row.n, row.k); IsVersion(ps, a) && GoesTo(fs, f, a)
  {
    OrderedRow(ps, fs, f, row);
  }

  lemma {:induction false} SomeErrorIff(fs: seq<Fold>, rest: seq<Fold>)
    ensures FirstError(fs, rest).Some? <==> exists f :: f in rest && FoldError(fs, f).Some?
  {
    hide FoldError;
    if rest != [] {
      SomeErrorIff(fs, rest[1..]);
      assert rest == [rest[0]] + rest[1..];
    }
  }

  /** Folds are refused exactly when one folds away an artifact of which another lists a version, or is left with no
      version at all. */
  lemma FoldsRefusedIff(ps: seq<Project>, fs: seq<Fold>)
    requires WellFormed(ps) && FoldsOk(ps, fs) && DistinctFoldTitles(fs)
    ensures FirstError(fs, fs).Some? <==> exists f :: f in fs && (ListedElsewhere(fs, f) || LeftEmpty(ps, fs, f))
  {
    SomeErrorIff(fs, fs);
    hide FirstError, WellFormed, FoldsOk, DistinctFoldTitles, ListedElsewhere, LeftEmpty, TitleOnly, Ordered;
    forall f | f in fs ensures FoldError(fs, f).Some? <==> ListedElsewhere(fs, f) || LeftEmpty(ps, fs, f) {
      ElsewhereIff(ps, fs, f);
      EmptyIff(ps, fs, f);
    }
  }

  // Redirects and names.

  /** Every redirect and every move of the result is for an address that led somewhere before. */
  lemma OnlyServedAddresses(r: Registry, plan: Plan, a: Address)
    requires Grouped(r, plan).Ok?
    ensures a in Grouped(r, plan).value.registry.redirects || a in Grouped(r, plan).value.mapping ==>
              a.ProjectAt? || Resolve(r, a).Ok?
    ensures a in Grouped(r, plan).value.mapping ==> Grouped(r, plan).value.mapping[a] != a
  {
    hide MergeSpecs, Folds, FirstError, Folded, Densified, DenseMoves, FoldMoves, Resolve;
  }

  /** Project `p` is there, under this name. */
  predicate Named(ps: seq<Project>, p: string, name: string)
  {
    FindProject(ps, p).Some? && FindProject(ps, p).value.name == name
  }

  lemma MergeKeepsName(d: Draft, tid: string, sid: string, p: string, name: string)
    requires WellFormed(d.projects) && p != sid && tid != sid && MergeSource(d, tid, sid).Ok? && Named(d.projects, p, name)
    ensures Named(MergeSource(d, tid, sid).value.projects, p, name)
  {
    var s, t := FindProject(d.projects, sid), FindProject(d.projects, tid);
    if s.Some? && t.Some? {
      AbsorbedFindsProject(d.projects, Enlarged(t.value, s.value), s.value, p);
    }
  }

  lemma MergeStaysWellFormed(d: Draft, tid: string, sid: string)
    requires WellFormed(d.projects) && tid != sid && MergeSource(d, tid, sid).Ok?
    ensures WellFormed(MergeSource(d, tid, sid).value.projects)
  {
    hide WellFormed;
    var s, t := FindProject(d.projects, sid), FindProject(d.projects, tid);
    if s.Some? && t.Some? {
      AbsorbedWellFormed(d.projects, t.value, s.value);
    }
  }

  lemma {:induction false} MergesKeepName(d: Draft, tid: string, sids: seq<string>, p: string, name: string)
    requires WellFormed(d.projects) && p !in sids && tid !in sids
    requires MergeSources(d, tid, sids).Ok? && Named(d.projects, p, name)
    ensures WellFormed(MergeSources(d, tid, sids).value.projects)
    ensures Named(MergeSources(d, tid, sids).value.projects, p, name)
    decreases |sids|
  {
    if sids != [] {
      hide WellFormed, Named, MergeSource;
      MergeKeepsName(d, tid, sids[0], p, name);
      MergeStaysWellFormed(d, tid, sids[0]);
      MergesKeepName(MergeSource(d, tid, sids[0]).value, tid, sids[1..], p, name);
    }
  }

  /** The plan neither renames project `p` nor merges it away. */
  predicate LeavesName(specs: seq<Spec>, p: string)
  {
    forall spec :: spec in specs ==> p !in spec.merge && (spec.id == p ==> spec.name.None?)
  }

  lemma OpenKeepsName(ps: seq<Project>, spec: Spec, p: string, name: string)
    requires WellFormed(ps) && Named(ps, p, name) && (spec.id == p ==> spec.name.None?)
    ensures WellFormed(OpenTarget(ps, spec)) && Named(OpenTarget(ps, spec), p, name)
  {
    OpenTargetShape(ps, spec);
  }

  lemma {:induction false} SpecsKeepName(d: Draft, specs: seq<Spec>, p: string, name: string)
    requires WellFormed(d.projects) && LeavesName(specs, p) && SourcesAreNotTargets(specs)
    requires MergeSpecs(d, specs).Ok? && Named(d.projects, p, name)
    ensures WellFormed(MergeSpecs(d, specs).value.projects) && Named(MergeSpecs(d, specs).value.projects, p, name)
    decreases |specs|
  {
    if specs != [] {
      hide WellFormed, Named, MergeSources, OpenTarget;
      var spec := specs[0];
      var ready := d.(projects := OpenTarget(d.projects, spec));
      OpenKeepsName(d.projects, spec, p, name);
      assert spec in specs && spec.id !in Sources(specs);
      MergesKeepName(ready, spec.id, spec.merge, p, name);
      FewerSources(specs);
      SpecsKeepName(MergeSources(ready, spec.id, spec.merge).value, specs[1..], p, name);
    }
  }

  lemma FewerSources(specs: seq<Spec>)
    requires specs != [] && SourcesAreNotTargets(specs)
    ensures SourcesAreNotTargets(specs[1..])
  {
    assert Sources(specs[1..]) <= Sources(specs);
  }

  lemma LaterStagesKeepName(ps: seq<Project>, fs: seq<Fold>, p: string, name: string)
    requires WellFormed(ps) && WellFormed(Folded(ps, fs)) && Named(ps, p, name)
    ensures Named(DenseProjects(Folded(ps, fs)), p, name)
  {
    FindProjectMap((q: Project) => Some(SettledProject(fs, q)), ps, p);
    FindProjectMap(q => Some(DenseProject(q)), Folded(ps, fs), p);
  }

  /** A plan renames the targets it gives a name to, and no other project. */
  lemma NamesStay(r: Registry, plan: Plan, p: string, name: string)
    requires Plannable(r, plan) && Grouped(r, plan).Ok? && LeavesName(plan.specs, p) && Named(r.projects, p, name)
    ensures Named(Grouped(r, plan).value.registry.projects, p, name)
  {
    hide Grouped, Plannable, DraftOf, FoldsOf, WellFormed, FoldsOk, Foldable, Folded, FoldTarget, DenseMoves, DenseProjects;
    hide Named, LeavesName;
    MergesKeepNames(r, plan, p, name);
    Stages(r, plan, ProjectAt(p));
    LaterStagesKeepName(DraftOf(r, plan).projects, FoldsOf(r, plan), p, name);
  }

  lemma MergesKeepNames(r: Registry, plan: Plan, p: string, name: string)
    requires Plannable(r, plan) && Grouped(r, plan).Ok? && LeavesName(plan.specs, p) && Named(r.projects, p, name)
    ensures Live(r.projects, ProjectAt(p)) && Named(DraftOf(r, plan).projects, p, name)
  {
    hide MergeSpecs, Folds, FirstError, LeavesName, SourcesAreNotTargets, WellFormed, TargetsLive, Unshadowed;
    SpecsKeepName(StartDraft(r), plan.specs, p, name);
  }
}

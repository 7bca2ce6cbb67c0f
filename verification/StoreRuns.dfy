/** Grouping keeps the store's invariant, and so does any run of promotions and groupings. */
module StoreRuns {
  import opened Basics
  import opened Registry
  import opened AddressMaps
  import opened Densify
  import opened Promotion
  import opened Merge
  import opened MergeTally
  import opened Fold
  import FoldAddresses
  import Gathering
  import opened Grouping
  import opened StoreCheck

  // Where each artifact of a registry came from, stage by stage.

  /** Artifact `b` of `after` has the sessions of some artifact of `before` that `target` takes to it. */
  ghost predicate Inherits(before: seq<Project>, target: Address -> Address, after: seq<Project>, b: Address)
    requires b.ArtifactAt?
  {
    exists a: Address ::
      a.ArtifactAt? && Lookup(before, a.p, a.n).Some? && target(a) == b
      && Lookup(after, b.p, b.n).Some?
      && Lookup(after, b.p, b.n).value.sessions == Lookup(before, a.p, a.n).value.sessions
  }

  lemma InheritedSessions(before: seq<Project>, target: Address -> Address, after: seq<Project>)
    requires SessionsOnce(before)
    requires forall b: Address :: b.ArtifactAt? && Lookup(after, b.p, b.n).Some? ==> Inherits(before, target, after, b)
    ensures SessionsOnce(after)
  {
    forall s, b, c | Makes(after, s, b) && Makes(after, s, c) ensures b == c {
      var x: Address :| x.ArtifactAt? && Lookup(before, x.p, x.n).Some? && target(x) == b
        && Lookup(after, b.p, b.n).value.sessions == Lookup(before, x.p, x.n).value.sessions;
      var y: Address :| y.ArtifactAt? && Lookup(before, y.p, y.n).Some? && target(y) == c
        && Lookup(after, c.p, c.n).value.sessions == Lookup(before, y.p, y.n).value.sessions;
      assert Makes(before, s, x) && Makes(before, s, y);
    }
  }

  lemma MergeInherits(ps: seq<Project>, t: Project, s: Project, b: Address)
    requires Mergeable(ps, t, s) && b.ArtifactAt? && Lookup(Absorbed(ps, Enlarged(t, s), s), b.p, b.n).Some?
    ensures Inherits(ps, a => MergeTarget(s, t.id, Base(t), a), Absorbed(ps, Enlarged(t, s), s), b)
  {
    hide FindArtifact, FindProject, Enlarged, ByNumber, Absorbed, PositionOf;
    AbsorbedFindsProject(ps, Enlarged(t, s), s, b.p);
    if b.p == t.id && Base(t) <= b.n < Base(t) + |s.artifacts| {
      var i := b.n - Base(t);
      EnlargedAt(t, s, i);
      AtPlace(s, i);
      var a := ArtifactAt(s.id, ByNumber(s.artifacts)[i].number);
      assert MergeTarget(s, t.id, Base(t), a) == b;
    } else {
      if b.p == t.id {
        EnlargedElsewhere(t, s, b.n);
      }
      assert MergeTarget(s, t.id, Base(t), b) == b;
    }
  }

  lemma MergeKeepsSessions(ps: seq<Project>, t: Project, s: Project)
    requires Mergeable(ps, t, s) && SessionsOnce(ps)
    ensures SessionsOnce(Absorbed(ps, Enlarged(t, s), s))
  {
    hide Mergeable, SessionsOnce, Absorbed, Enlarged, Inherits;
    var after := Absorbed(ps, Enlarged(t, s), s);
    forall b: Address | b.ArtifactAt? && Lookup(after, b.p, b.n).Some?
      ensures Inherits(ps, a => MergeTarget(s, t.id, Base(t), a), after, b)
    {
      MergeInherits(ps, t, s, b);
    }
    InheritedSessions(ps, a => MergeTarget(s, t.id, Base(t), a), after);
  }

  lemma DenseInherits(ps: seq<Project>, b: Address)
    requires WellFormed(ps) && b.ArtifactAt? && Lookup(DenseProjects(ps), b.p, b.n).Some?
    ensures Inherits(ps, a => DenseTarget(ps, a), DenseProjects(ps), b)
  {
    FindProjectMap(q => Some(DenseProject(q)), ps, b.p);
    var p := FindProject(ps, b.p).value;
    var y := FindArtifact(DenseProject(p).artifacts, b.n).value;
    var i :| 0 <= i < |p.artifacts| && DenseProject(p).artifacts[i] == y;
    DenseMember(p, i);
    var a := ArtifactAt(b.p, InDateOrder(p.artifacts)[i].number);
    assert DenseTarget(ps, a) == b;
  }

  lemma DenseKeepsSessions(ps: seq<Project>)
    requires WellFormed(ps) && SessionsOnce(ps)
    ensures SessionsOnce(DenseProjects(ps))
  {
    forall b: Address | b.ArtifactAt? && Lookup(DenseProjects(ps), b.p, b.n).Some?
      ensures Inherits(ps, a => DenseTarget(ps, a), DenseProjects(ps), b)
    {
      DenseInherits(ps, b);
    }
    InheritedSessions(ps, a => DenseTarget(ps, a), DenseProjects(ps));
  }

  // Folding.

  /** The members of a fold have no session twice. */
  lemma MembersApart(ps: seq<Project>, f: Fold)
    requires SessionsOnce(ps) && FoldOk(ps, f)
    ensures SessionsApart(f.members)
  {
    hide Distinct;
    var xs := f.members;
    forall i | 0 <= i < |xs| ensures Distinct(xs[i].sessions) {
      assert xs[i] in xs;
      var a := ArtifactAt(f.project, xs[i].number);
      assert Lookup(ps, a.p, a.n) == Some(xs[i]);
    }
    forall i, j, s | 0 <= i < j < |xs| && s in xs[i].sessions ensures s !in xs[j].sessions {
      assert xs[i] in xs && xs[j] in xs;
      var a, b := ArtifactAt(f.project, xs[i].number), ArtifactAt(f.project, xs[j].number);
      assert a != b && Makes(ps, s, a) && (s in xs[j].sessions ==> Makes(ps, s, b));
    }
  }

  /** A session of a folded registry made an artifact that the folds take to where it makes one now. */
  lemma FoldMakes(ps: seq<Project>, fs: seq<Fold>, s: string, b: Address) returns (a: Address)
    requires WellFormed(ps) && FoldsOk(ps, fs) && Makes(Folded(ps, fs), s, b)
    ensures Makes(ps, s, a) && FoldTarget(ps, fs, a) == b
  {
    a := b;
    FoldAddresses.FoldedLookup(ps, fs, b.p, b.n);
    match ClaimingFold(fs, b.p, b.n)
    case Some(f) =>
      if !TitleOnly(fs, f) {
        SessionMember(f.members, s);
        var i :| 0 <= i < |f.members| && s in f.members[i].sessions;
        a := MemberMakes(ps, fs, f, i, s);
      }
    case None =>
  }

  lemma MemberMakes(ps: seq<Project>, fs: seq<Fold>, f: Fold, i: nat, s: string) returns (a: Address)
    requires FoldsOk(ps, fs) && f in fs && i < |f.members| && s in f.members[i].sessions
    ensures a == ArtifactAt(f.project, f.members[i].number)
    ensures Makes(ps, s, a) && FoldTarget(ps, fs, a) == ArtifactAt(f.project, Keeper(f))
  {
    a := ArtifactAt(f.project, f.members[i].number);
    assert FoldOk(ps, f) && f.members[i] in f.members;
    assert Claims(f, f.project, f.members[i].number);
    Claimer(ps, fs, f, f.project, f.members[i].number);
  }

  lemma FoldedDistinct(ps: seq<Project>, fs: seq<Fold>, p: string, n: nat)
    requires WellFormed(ps) && FoldsOk(ps, fs) && SessionsOnce(ps) && Lookup(Folded(ps, fs), p, n).Some?
    ensures Distinct(Lookup(Folded(ps, fs), p, n).value.sessions)
  {
    hide Distinct, AllSessions, Ordered, Unpicked;
    FoldAddresses.FoldedLookup(ps, fs, p, n);
    var a := ArtifactAt(p, n);
    assert Lookup(ps, a.p, a.n).Some?;
    match ClaimingFold(fs, p, n)
    case Some(f) =>
      MembersApart(ps, f);
      DistinctIffApart(f.members);
    case None =>
  }

  lemma FoldKeepsSessions(ps: seq<Project>, fs: seq<Fold>)
    requires WellFormed(ps) && FoldsOk(ps, fs) && SessionsOnce(ps)
    ensures SessionsOnce(Folded(ps, fs))
  {
    hide WellFormed, FoldsOk, Folded, Distinct;
    var after := Folded(ps, fs);
    forall a: Address | a.ArtifactAt? && Lookup(after, a.p, a.n).Some? ensures Distinct(Lookup(after, a.p, a.n).value.sessions) {
      FoldedDistinct(ps, fs, a.p, a.n);
    }
    forall s, b, c | Makes(after, s, b) && Makes(after, s, c) ensures b == c {
      var x := FoldMakes(ps, fs, s, b);
      var y := FoldMakes(ps, fs, s, c);
    }
  }

  // Revision names.

  /** A rewrite that takes each version, within its project, to its own address with its own revision keeps revisions
      apart. */
  lemma RevisionsCarried(before: seq<Project>, m: map<Address, Address>, after: seq<Project>)
    requires RevisionsOnce(before) && Covers(before, m, after)
    requires forall a :: IsVersion(before, a) ==>
               Follow(m, a).p == a.p && RevisionAt(after, Follow(m, a)) == RevisionAt(before, a)
    ensures RevisionsOnce(after)
  {
    forall b: Address, c: Address | RevisionAt(after, b).Some? && b.p == c.p && RevisionAt(after, b) == RevisionAt(after, c)
      ensures b == c
    {
      assert IsVersion(after, b) && IsVersion(after, c);
      var x :| IsVersion(before, x) && Follow(m, x) == b;
      var y :| IsVersion(before, y) && Follow(m, y) == c;
    }
  }

  lemma FoldKeepsRevisions(ps: seq<Project>, fs: seq<Fold>)
    requires WellFormed(ps) && FoldsOk(ps, fs) && RevisionsOnce(ps)
    ensures RevisionsOnce(Folded(ps, fs))
  {
    hide WellFormed, FoldsOk, Folded, FoldTarget, FoldMoves, RevisionsOnce;
    FoldAddresses.FoldCovers(ps, fs);
    forall a | IsVersion(ps, a)
      ensures Follow(FoldMoves(ps, fs), a).p == a.p
              && RevisionAt(Folded(ps, fs), Follow(FoldMoves(ps, fs), a)) == RevisionAt(ps, a)
    {
      FoldKeepsRevision(ps, fs, a);
      FoldMovesWithin(ps, fs, a);
    }
    RevisionsCarried(ps, FoldMoves(ps, fs), Folded(ps, fs));
  }

  lemma FoldMovesWithin(ps: seq<Project>, fs: seq<Fold>, a: Address)
    requires Live(ps, a)
    ensures Follow(FoldMoves(ps, fs), a).p == a.p
  {
    FoldMovesFollow(ps, fs, a);
  }

  lemma DenseKeepsRevisions(ps: seq<Project>)
    requires WellFormed(ps) && RevisionsOnce(ps)
    ensures RevisionsOnce(DenseProjects(ps))
  {
    DenseCovers(ps);
    hide WellFormed, RevisionsOnce, DenseProjects, DenseNumber;
    forall a | IsVersion(ps, a)
      ensures Follow(DenseMoves(ps), a).p == a.p && RevisionAt(DenseProjects(ps), Follow(DenseMoves(ps), a)) == RevisionAt(ps, a)
    {
      DenseKeepsRevision(ps, a);
    }
    RevisionsCarried(ps, DenseMoves(ps), DenseProjects(ps));
  }

  /** What revision a version has after one merge. */
  lemma MergedRevision(ps: seq<Project>, t: Project, s: Project, a: Address)
    requires Mergeable(ps, t, s) && IsVersion(ps, a)
    ensures var name := RevisionAt(ps, a).value;
            RevisionAt(Absorbed(ps, Enlarged(t, s), s), MergeTarget(s, t.id, Base(t), a))
            == Some(if a.p == s.id then Prefixed(s.id, name) else name)
  {
    hide Enlarged, Absorbed, FindProject, FindArtifact, Mergeable, MergeTarget;
    MergeLookup(ps, t, s, a);
    MergeTargetKeepsPlace(s, t.id, Base(t), a);
  }

  lemma MergeTargetKeepsPlace(s: Project, t: string, base: nat, a: Address)
    requires a.VersionAt?
    ensures var b := MergeTarget(s, t, base, a);
            b.VersionAt? && b.k == a.k && b.p == if a.p == s.id then t else a.p
  {
  }

  lemma PrefixedDiffers(source: string, x: string, y: string)
    requires Prefixed(source, x) == Prefixed(source, y)
    ensures x == y
  {
    assert Prefixed(source, x)[|source| + 1..] == x && Prefixed(source, y)[|source| + 1..] == y;
  }

  /** A merge is refused when a name it makes is in use. */
  lemma NamesApart(ps: seq<Project>, t: Project, s: Project, x: Address, y: Address)
    requires Mergeable(ps, t, s) && !Collides(t, s)
    requires IsVersion(ps, x) && IsVersion(ps, y) && x.p == s.id && y.p == t.id
    ensures Prefixed(s.id, RevisionAt(ps, x).value) != RevisionAt(ps, y).value
  {
    var a, b := Lookup(ps, x.p, x.n).value, Lookup(ps, y.p, y.n).value;
    assert a in s.artifacts && a.versions[x.k - 1] in a.versions;
    assert b in t.artifacts && b.versions[y.k - 1] in b.versions;
    assert b.versions[y.k - 1].revision in Revisions(t);
  }

  lemma MergeKeepsRevisions(ps: seq<Project>, t: Project, s: Project)
    requires Mergeable(ps, t, s) && !Collides(t, s) && RevisionsOnce(ps)
    ensures RevisionsOnce(Absorbed(ps, Enlarged(t, s), s))
  {
    var after := Absorbed(ps, Enlarged(t, s), s);
    assert s.id != t.id;
    hide Mergeable, Collides, Absorbed, Enlarged, Prefixed, MergeTarget;
    forall b: Address, c: Address | RevisionAt(after, b).Some? && b.p == c.p && RevisionAt(after, b) == RevisionAt(after, c)
      ensures b == c
    {
      assert IsVersion(after, b) && IsVersion(after, c);
      var x := MergePredecessor(ps, t, s, b);
      var y := MergePredecessor(ps, t, s, c);
      MergedRevision(ps, t, s, x);
      MergedRevision(ps, t, s, y);
      MergeTargetKeepsPlace(s, t.id, Base(t), x);
      MergeTargetKeepsPlace(s, t.id, Base(t), y);
      if x.p == s.id && y.p == s.id {
        PrefixedDiffers(s.id, RevisionAt(ps, x).value, RevisionAt(ps, y).value);
      } else if x.p == s.id {
        NamesApart(ps, t, s, x, y);
      } else if y.p == s.id {
        NamesApart(ps, t, s, y, x);
      }
    }
  }

  // A whole plan.

  /** A session makes one artifact, and a revision name of a project is one version's. */
  ghost predicate NamesOnce(ps: seq<Project>)
  {
    SessionsOnce(ps) && RevisionsOnce(ps)
  }

  lemma SameArtifactsName(before: seq<Project>, after: seq<Project>)
    requires SameArtifacts(before, after) && NamesOnce(before)
    ensures NamesOnce(after)
  {
    assert forall a :: RevisionAt(after, a) == RevisionAt(before, a);
    assert forall s, a :: Makes(after, s, a) == Makes(before, s, a);
    hide Distinct;
    forall a: Address | a.ArtifactAt? && Lookup(after, a.p, a.n).Some? ensures Distinct(Lookup(after, a.p, a.n).value.sessions) {
      assert Lookup(before, a.p, a.n).Some?;
    }
  }

  lemma OneSourceNames(d: Draft, tid: string, sid: string)
    requires WellFormed(d.projects) && tid != sid && MergeSource(d, tid, sid).Ok? && NamesOnce(d.projects)
    ensures NamesOnce(MergeSource(d, tid, sid).value.projects)
  {
    hide WellFormed, SessionsOnce, RevisionsOnce, Collides, Absorbed, Enlarged;
    var s, t := FindProject(d.projects, sid), FindProject(d.projects, tid);
    if s.Some? && t.Some? {
      MergeKeepsSessions(d.projects, t.value, s.value);
      MergeKeepsRevisions(d.projects, t.value, s.value);
    }
  }

  lemma {:induction false} SourcesName(start: Registry, sources: set<string>, d: Draft, tid: string, ids: seq<string>)
    requires Sound(start) && DraftGood(start, sources, d) && NamesOnce(d.projects)
    requires MergeSources(d, tid, ids).Ok? && tid !in sources && forall sid :: sid in ids ==> sid in sources
    ensures NamesOnce(MergeSources(d, tid, ids).value.projects)
    decreases |ids|
  {
    hide DraftGood, MergeSource, MergeSources, Sound, WellFormed, NamesOnce;
    SourcesStep(start.projects, {}, d, tid, ids);
    if ids != [] {
      assert ids[0] in ids && forall sid :: sid in ids[1..] ==> sid in ids;
      GoodIsWellFormed(start, sources, d);
      OneSourceGood(start, sources, d, tid, ids[0]);
      OneSourceNames(d, tid, ids[0]);
      SourcesName(start, sources, MergeSource(d, tid, ids[0]).value, tid, ids[1..]);
    }
  }

  lemma {:induction false} SpecsName(start: Registry, sources: set<string>, d: Draft, specs: seq<Spec>)
    requires Sound(start) && DraftGood(start, sources, d) && NamesOnce(d.projects) && MergeSpecs(d, specs).Ok?
    requires forall spec :: spec in specs ==> spec.id !in sources && forall sid :: sid in spec.merge ==> sid in sources
    ensures NamesOnce(MergeSpecs(d, specs).value.projects)
    decreases |specs|
  {
    hide OpenTarget, DraftGood, MergeSources, MergeSpecs, Sound, WellFormed, NamesOnce, SameArtifacts;
    SpecsStep(start.projects, {}, d, specs, "");
    if specs != [] {
      var spec := specs[0];
      var ready := d.(projects := OpenTarget(d.projects, spec));
      OpenKeepsGood(start, sources, d, spec);
      GoodIsWellFormed(start, sources, d);
      OpenTargetShape(d.projects, spec);
      SameArtifactsName(d.projects, ready.projects);
      SourcesKeepGood(start, sources, ready, spec.id, spec.merge);
      SourcesName(start, sources, ready, spec.id, spec.merge);
      SpecsName(start, sources, MergeSources(ready, spec.id, spec.merge).value, specs[1..]);
    }
  }

  lemma LaterStagesName(ps: seq<Project>, fs: seq<Fold>)
    requires WellFormed(ps) && FoldsOk(ps, fs) && Foldable(fs) && NamesOnce(ps)
    ensures NamesOnce(DenseProjects(Folded(ps, fs)))
  {
    hide WellFormed, FoldsOk, Foldable, Folded, DenseProjects, SessionsOnce, RevisionsOnce;
    FoldAddresses.FoldedWellFormed(ps, fs);
    FoldKeepsSessions(ps, fs);
    FoldKeepsRevisions(ps, fs);
    DenseKeepsSessions(Folded(ps, fs));
    DenseKeepsRevisions(Folded(ps, fs));
  }

  /** Applying a plan keeps the whole invariant, even of a registry that was not densely numbered before. */
  lemma GroupingKeepsInvariant(r: Registry, plan: Plan)
    requires Plannable(r, plan) && Grouped(r, plan).Ok? && SessionsOnce(r.projects) && RevisionsOnce(r.projects)
    ensures StoreInvariant(Grouped(r, plan).value.registry)
  {
    hide Grouped, DraftOf, FoldsOf, Finished, DraftGood, WellFormed, FoldsOk, Foldable, Sound, SessionsOnce,
      RevisionsOnce, Dense, MergeSpecs, StartDraft, Carries, Covers, EndsLive;
    var d, fs := DraftOf(r, plan), FoldsOf(r, plan);
    GroupedParts(r, plan);
    StagesHold(r, plan);
    StartIsGood(r, Sources(plan.specs));
    StartHas(r);
    SpecsName(r, Sources(plan.specs), StartDraft(r), plan.specs);
    LaterStagesName(d.projects, fs);
    FinishedParts(r, d, fs);
    GroupingKeepsEverything(r, plan);
  }

  lemma StartHas(r: Registry)
    ensures StartDraft(r).projects == r.projects && StartDraft(r).redirects == r.redirects
  {
  }

  // Proper ids.

  /** Every project's id is proper, and every redirect starts in such a project. */
  ghost predicate IdsProper(ps: seq<Project>, redirects: map<Address, Address>)
  {
    && (forall id :: FindProject(ps, id).Some? ==> Slug(id))
    && forall a :: a in redirects ==> Slug(a.p)
  }

  lemma SluggedIff(r: Registry)
    requires WellFormed(r.projects)
    ensures Slugged(r) <==> IdsProper(r.projects, r.redirects)
  {
    hide Slug;
    if IdsProper(r.projects, r.redirects) {
      forall p | p in r.projects ensures Slug(p.id) {
        assert FindProject(r.projects, p.id).Some?;
      }
    }
  }

  lemma LiveIsProper(ps: seq<Project>, a: Address)
    requires Live(ps, a)
    ensures FindProject(ps, a.p).Some?
  {
  }

  lemma OneSourceProper(d: Draft, tid: string, sid: string)
    requires WellFormed(d.projects) && tid != sid && MergeSource(d, tid, sid).Ok? && IdsProper(d.projects, d.redirects)
    ensures var d' := MergeSource(d, tid, sid).value; IdsProper(d'.projects, d'.redirects)
  {
    hide WellFormed, Slug, FindProject, Collides, Enlarged, Absorbed, Live;
    var s, t := FindProject(d.projects, sid), FindProject(d.projects, tid);
    if s.Some? && t.Some? {
      MergedProper(d, t.value, s.value);
    }
  }

  lemma MergedProper(d: Draft, t: Project, s: Project)
    requires Mergeable(d.projects, t, s) && IdsProper(d.projects, d.redirects)
    ensures IdsProper(Merged(d, t, s).projects, Merged(d, t, s).redirects)
  {
    hide WellFormed, Slug, FindProject, Enlarged, Absorbed, Live;
    FindsAfterMerge(d, t, s);
    forall a | a in Merged(d, t, s).redirects ensures Slug(a.p) {
      if a in MergeMoves(d.projects, s, t.id, Base(t)) {
        LiveIsProper(d.projects, a);
      }
    }
  }

  lemma {:induction false} SourcesProper(start: Registry, sources: set<string>, d: Draft, tid: string, ids: seq<string>)
    requires Sound(start) && DraftGood(start, sources, d) && IdsProper(d.projects, d.redirects)
    requires MergeSources(d, tid, ids).Ok? && tid !in sources && forall sid :: sid in ids ==> sid in sources
    ensures var d' := MergeSources(d, tid, ids).value; IdsProper(d'.projects, d'.redirects)
    decreases |ids|
  {
    hide DraftGood, MergeSource, MergeSources, Sound, WellFormed, IdsProper;
    SourcesStep(start.projects, {}, d, tid, ids);
    if ids != [] {
      assert ids[0] in ids && forall sid :: sid in ids[1..] ==> sid in ids;
      GoodIsWellFormed(start, sources, d);
      OneSourceGood(start, sources, d, tid, ids[0]);
      OneSourceProper(d, tid, ids[0]);
      SourcesProper(start, sources, MergeSource(d, tid, ids[0]).value, tid, ids[1..]);
    }
  }

  lemma {:induction false} SpecsProper(start: Registry, sources: set<string>, d: Draft, specs: seq<Spec>)
    requires Sound(start) && DraftGood(start, sources, d) && IdsProper(d.projects, d.redirects) && MergeSpecs(d, specs).Ok?
    requires forall spec :: spec in specs ==> spec.id !in sources && forall sid :: sid in spec.merge ==> sid in sources
    requires forall spec :: spec in specs ==> Slug(spec.id)
    ensures var d' := MergeSpecs(d, specs).value; IdsProper(d'.projects, d'.redirects)
    decreases |specs|
  {
    hide OpenTarget, DraftGood, MergeSources, MergeSpecs, Sound, WellFormed, IdsProper, Slug;
    SpecsStep(start.projects, {}, d, specs, "");
    if specs != [] {
      var spec := specs[0];
      var ready := d.(projects := OpenTarget(d.projects, spec));
      OpenKeepsGood(start, sources, d, spec);
      GoodIsWellFormed(start, sources, d);
      OpenedProper(d.projects, spec, d.redirects);
      SourcesKeepGood(start, sources, ready, spec.id, spec.merge);
      SourcesProper(start, sources, ready, spec.id, spec.merge);
      SpecsProper(start, sources, MergeSources(ready, spec.id, spec.merge).value, specs[1..]);
    }
  }

  lemma OpenedProper(ps: seq<Project>, spec: Spec, redirects: map<Address, Address>)
    requires WellFormed(ps) && Slug(spec.id) && IdsProper(ps, redirects)
    ensures IdsProper(OpenTarget(ps, spec), redirects)
  {
    hide Slug, FindProject, OpenTarget;
    OpenTargetShape(ps, spec);
  }

  lemma FinishedProper(r: Registry, d: Draft, fs: seq<Fold>)
    requires Staged(r, d, fs) && IdsProper(r.projects, r.redirects) && IdsProper(d.projects, d.redirects)
    ensures var o := Finished(r, d, fs); IdsProper(o.registry.projects, o.registry.redirects)
  {
    hide Slug, FindProject, Folded, DenseProjects, FoldMoves, DenseMoves, FoldsOk, Foldable, Live, Sound, EndsLive,
      Carries, Covers, Existed;
    var o, folded := Finished(r, d, fs), Folded(d.projects, fs);
    FoldAddresses.FoldedWellFormed(d.projects, fs);
    forall id ensures FindProject(o.registry.projects, id).Some? <==> FindProject(d.projects, id).Some?
              ensures FindProject(folded, id).Some? <==> FindProject(d.projects, id).Some?
    {
      FoldAddresses.FoldedLookup(d.projects, fs, id, 0);
      DenseLookup(folded, id, 0);
    }
    FoldMovesLive(d.projects, fs);
    DenseMovesLive(folded);
    forall a | a in o.registry.redirects ensures Slug(a.p) {
      if a in FoldMoves(d.projects, fs) {
        LiveIsProper(d.projects, a);
      } else if a in DenseMoves(folded) {
        LiveIsProper(folded, a);
      } else if a in d.mapping {
        LiveIsProper(r.projects, a);
      }
    }
  }

  lemma DenseMovesLive(ps: seq<Project>)
    ensures forall a :: a in DenseMoves(ps) ==> Live(ps, a)
  {
  }

  /** Grouping under targets with proper ids keeps ids proper. */
  lemma GroupingKeepsProper(r: Registry, plan: Plan)
    requires Plannable(r, plan) && Grouped(r, plan).Ok? && Slugged(r)
    requires forall spec :: spec in plan.specs ==> Slug(spec.id)
    ensures Slugged(Grouped(r, plan).value.registry)
  {
    hide Grouped, DraftOf, FoldsOf, Finished, DraftGood, WellFormed, Slug, Slugged, IdsProper, Dense, MergeSpecs,
      StartDraft, Carries, Covers, EndsLive, FoldsOk, Foldable;
    var d, fs := DraftOf(r, plan), FoldsOf(r, plan);
    SluggedIff(r);
    GroupedParts(r, plan);
    StagesHold(r, plan);
    StartIsGood(r, Sources(plan.specs));
    StartHas(r);
    SpecsProper(r, Sources(plan.specs), StartDraft(r), plan.specs);
    FinishedProper(r, d, fs);
    GroupingKeepsEverything(r, plan);
    SluggedIff(Grouped(r, plan).value.registry);
  }

  lemma PromotionKeepsProper(r: Registry, q: Request, taken: set<string>)
    requires WellFormed(r.projects) && Slugged(r) && Slug(q.project) && Promoted(r, q, taken).Ok?
    ensures Slugged(Promoted(r, q, taken).value)
  {
    hide Slug, WellNumbered, Extended, Grown, FreshRevision, ReplaceArtifact;
    var r' := Promoted(r, q, taken).value;
    if FindOwner(r.projects, q.session).Some? {
      var p, x := FindOwner(r.projects, q.session).value.project, FindOwner(r.projects, q.session).value.artifact;
      ReplaceProjectShape(r.projects, p, p.(artifacts := ReplaceArtifact(p.artifacts, Extended(p, x, q, taken))));
    } else if FindProject(r.projects, q.project).Some? {
      var p := FindProject(r.projects, q.project).value;
      GrownKeepsId(p, q, taken);
      ReplaceProjectShape(r.projects, p, Grown(p, q, taken));
    } else {
      GrownKeepsId(NewProject(q), q, taken);
    }
  }

  lemma GrownKeepsId(p: Project, q: Request, taken: set<string>)
    requires p.next.Some?
    ensures Grown(p, q, taken).id == p.id
  {
  }

  // Runs of the service.

  datatype Operation = Promote(promotion: Promotion) | Regroup(plan: Plan)

  /** An operation that raises leaves the registry as it was. */
  function Applied(r: Registry, op: Operation): Registry
  {
    match op
    case Promote(e) => Step(r, e)
    case Regroup(plan) =>
      match Grouped(r, plan)
      case Ok(o) => o.registry
      case Err(_) => r
  }

  function Served(r: Registry, ops: seq<Operation>): Registry
    decreases |ops|
  {
    if ops == [] then r else Served(Applied(r, ops[0]), ops[1..])
  }

  /** New ids are proper. A promotion makes no project at an id that redirects elsewhere; a plan merges no target away
      and repeats no title within a project. */
  ghost predicate Proper(r: Registry, op: Operation)
  {
    match op
    case Promote(e) => Slug(e.request.project) && !RevivesRetiredProject(r, e.request)
    case Regroup(plan) =>
      && (forall spec :: spec in plan.specs ==> Slug(spec.id))
      && SourcesAreNotTargets(plan.specs) && Gathering.DistinctTitles(plan.groups)
  }

  ghost predicate AllProper(r: Registry, ops: seq<Operation>)
    decreases |ops|
  {
    ops == [] || (Proper(r, ops[0]) && AllProper(Applied(r, ops[0]), ops[1..]))
  }

  lemma OperationKeepsInvariant(r: Registry, op: Operation)
    requires StoreInvariant(r) && Slugged(r) && Proper(r, op)
    ensures StoreInvariant(Applied(r, op)) && Slugged(Applied(r, op))
  {
    hide Promoted, Grouped, WellFormed, SessionsOnce, RevisionsOnce, AllDense, Slugged, Slug;
    match op
    case Promote(e) =>
      if Promoted(r, e.request, e.taken).Ok? {
        PromotionKeepsInvariant(r, e.request, e.taken);
        PromotionKeepsProper(r, e.request, e.taken);
      }
    case Regroup(plan) =>
      if Grouped(r, plan).Ok? {
        GroupingKeepsInvariant(r, plan);
        GroupingKeepsProper(r, plan);
      }
  }

  /** Any run of promotions and groupings keeps the invariant, and a registry that the check accepts. */
  lemma {:induction false} ServiceKeepsInvariant(r: Registry, ops: seq<Operation>)
    requires StoreInvariant(r) && Slugged(r) && AllProper(r, ops)
    ensures StoreInvariant(Served(r, ops)) && Accepted(Served(r, ops))
    decreases |ops|
  {
    hide StoreInvariant, Accepted, Slugged, Proper;
    if ops == [] {
      InvariantIsAccepted(r);
    } else {
      OperationKeepsInvariant(r, ops[0]);
      ServiceKeepsInvariant(Applied(r, ops[0]), ops[1..]);
    }
  }
}

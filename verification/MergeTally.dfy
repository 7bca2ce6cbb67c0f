/** Counting what the merges of a plan do: which projects go, and which artifact numbers are assigned. The count is made
    on the plan and the registry it starts from, and shown to agree with the draft that the merges rewrite step by
    step. */
module MergeTally {
  import opened Basics
  import opened Registry
  import AddressMaps
  import opened Merge

  // The numbers that a plan's merges assign.

  function ArtifactsOf(ps: seq<Project>, id: string): nat
  {
    match FindProject(ps, id)
    case None => 0
    case Some(p) => |p.artifacts|
  }

  function New(ps: seq<Project>, gone: set<string>, id: string): nat
  {
    if id in gone then 0 else ArtifactsOf(ps, id)
  }

  /** How many artifacts merging `ids` in turn brings, when the projects in `gone` have been merged already. */
  function Brought(ps: seq<Project>, gone: set<string>, ids: seq<string>): nat
    decreases |ids|
  {
    if ids == [] then 0 else New(ps, gone, ids[0]) + Brought(ps, gone + {ids[0]}, ids[1..])
  }

  /** How many artifacts the merges of a plan bring to project `id`. */
  function BroughtTo(ps: seq<Project>, gone: set<string>, specs: seq<Spec>, id: string): nat
    decreases |specs|
  {
    if specs == [] then 0
    else
      var first := if specs[0].id == id then Brought(ps, gone, specs[0].merge) else 0;
      first + BroughtTo(ps, gone + Elements(specs[0].merge), specs[1..], id)
  }

  function Named(gone: set<string>, specs: seq<Spec>): set<string>
    decreases |specs|
  {
    if specs == [] then gone else Named(gone + Elements(specs[0].merge), specs[1..])
  }

  /** The number that the next artifact of project `id` gets; a merge makes a target that is not there. */
  function NextOf(ps: seq<Project>, id: string): nat
  {
    match FindProject(ps, id)
    case None => 1
    case Some(p) => Base(p)
  }

  /** `a` lies at or under an artifact number that the plan's merges assign. */
  predicate NumberAssigned(ps: seq<Project>, specs: seq<Spec>, a: Address)
  {
    !a.ProjectAt? && NextOf(ps, a.p) <= a.n < NextOf(ps, a.p) + BroughtTo(ps, {}, specs, a.p)
  }

  /** The sources merged so far are gone, and the others are as they were. */
  ghost predicate SourcesLeft(start: seq<Project>, sources: set<string>, gone: set<string>, now: seq<Project>)
  {
    forall id :: id in sources ==> FindProject(now, id) == if id in gone then None else FindProject(start, id)
  }

  /** The project cannot be given another artifact. */
  predicate Closed(ps: seq<Project>, id: string)
  {
    FindProject(ps, id).Some? && FindProject(ps, id).value.next.None?
  }

  /** Project `id`, which is no source, has its old artifacts and `count` new ones under the numbers that follow. */
  ghost predicate Counted(start: seq<Project>, now: seq<Project>, id: string, count: nat)
  {
    && NextOf(now, id) == NextOf(start, id) + count
    && (FindProject(now, id).None? ==> count == 0)
    && (Closed(start, id) ==> count == 0 && Closed(now, id))
    && forall n: nat :: Lookup(now, id, n).Some? <==>
         Lookup(start, id, n).Some? || NextOf(start, id) <= n < NextOf(start, id) + count
  }

  /** A redirect under an assigned number is deleted. */
  ghost predicate TakenDeleted(start: seq<Project>, d: Draft)
  {
    forall a :: TakenOver(start, d.projects, a) ==> a !in d.redirects
  }

  /** What the merges so far have done to the sources, to project `id` and to the redirects. */
  ghost predicate Tally(start: Registry, sources: set<string>, gone: set<string>, d: Draft, id: string, count: nat)
  {
    && SourcesLeft(start.projects, sources, gone, d.projects)
    && Counted(start.projects, d.projects, id, count)
    && TakenDeleted(start.projects, d)
  }

  lemma TargetNext(t: Project, s: Project)
    requires s.artifacts == [] || t.next.Some?
    ensures Base(Enlarged(t, s)) == Base(t) + |s.artifacts|
    ensures t.next.None? ==> Enlarged(t, s) == t && s.artifacts == []
  {
  }

  lemma EnlargedFinds(t: Project, s: Project, n: nat)
    requires Numbers(t, s)
    ensures FindArtifact(Enlarged(t, s).artifacts, n).Some? <==>
            FindArtifact(t.artifacts, n).Some? || Base(t) <= n < Base(t) + |s.artifacts|
  {
    if Base(t) <= n < Base(t) + |s.artifacts| {
      EnlargedAt(t, s, n - Base(t));
    } else {
      EnlargedElsewhere(t, s, n);
    }
  }

  lemma MergeableTarget(ps: seq<Project>, t: Project, s: Project)
    requires Mergeable(ps, t, s)
    ensures Numbers(t, s) && (s.artifacts == [] || t.next.Some?) && FindProject(ps, t.id) == Some(t)
  {
  }

  lemma MergeCounts(start: seq<Project>, d: Draft, t: Project, s: Project, id: string, count: nat)
    requires Mergeable(d.projects, t, s) && id != s.id && Counted(start, d.projects, id, count)
    ensures Counted(start, Merged(d, t, s).projects, id, count + if t.id == id then |s.artifacts| else 0)
  {
    hide Merged, Mergeable, Numbers, FindProject, FindArtifact, Enlarged, Base;
    MergedFindsProject(d, t, s, id);
    MergeableTarget(d.projects, t, s);
    if t.id == id {
      TargetNext(t, s);
      forall n: nat
        ensures FindArtifact(Enlarged(t, s).artifacts, n).Some? <==>
                FindArtifact(t.artifacts, n).Some? || Base(t) <= n < Base(t) + |s.artifacts|
      {
        EnlargedFinds(t, s, n);
      }
    }
  }

  lemma MergeDeletes(start: seq<Project>, d: Draft, t: Project, s: Project)
    requires Mergeable(d.projects, t, s) && TakenDeleted(start, d)
    ensures TakenDeleted(start, Merged(d, t, s))
  {
    var d' := Merged(d, t, s);
    forall a | TakenOver(start, d'.projects, a) ensures a !in d'.redirects {
      MergedFindsProject(d, t, s, a.p);
      if a.p == t.id && !(Base(t) <= a.n < Base(t) + |s.artifacts|) {
        EnlargedElsewhere(t, s, a.n);
      }
      AddressMaps.CarriedEntry(YieldedRange(d.redirects, t.id, Base(t), |s.artifacts|), MergeMoves(d.projects, s, t.id, Base(t)), a);
    }
  }

  lemma FindsAfterMerge(d: Draft, t: Project, s: Project)
    requires Mergeable(d.projects, t, s)
    ensures forall id :: FindProject(Merged(d, t, s).projects, id) ==
              if id == s.id then None else if id == t.id then Some(Enlarged(t, s)) else FindProject(d.projects, id)
  {
    forall id ensures FindProject(Merged(d, t, s).projects, id) ==
        if id == s.id then None else if id == t.id then Some(Enlarged(t, s)) else FindProject(d.projects, id)
    {
      MergedFindsProject(d, t, s, id);
    }
  }

  lemma OneSource(start: Registry, sources: set<string>, gone: set<string>, d: Draft, tid: string, sid: string,
                  id: string, count: nat)
    requires WellFormed(d.projects) && FindProject(d.projects, tid).Some? && MergeSource(d, tid, sid).Ok?
    requires sid in sources && tid !in sources && id !in sources && Tally(start, sources, gone, d, id, count)
    ensures Tally(start, sources, gone + {sid}, MergeSource(d, tid, sid).value, id,
                  count + if tid == id then New(start.projects, gone, sid) else 0)
    ensures FindProject(MergeSource(d, tid, sid).value.projects, tid).Some?
  {
    hide Merged, Enlarged, Counted, TakenDeleted, SourcesLeft, Collides, WellFormed, FindArtifact, ArtifactsOf;
    match FindProject(d.projects, sid)
    case None => SourceMissing(start.projects, sources, gone, d.projects, sid);
    case Some(s) =>
      var t := FindProject(d.projects, tid).value;
      MergeCounts(start.projects, d, t, s, id, count);
      MergeDeletes(start.projects, d, t, s);
      SourceGone(start.projects, sources, gone, d, t, s);
  }

  lemma SourceMissing(start: seq<Project>, sources: set<string>, gone: set<string>, now: seq<Project>, sid: string)
    requires SourcesLeft(start, sources, gone, now) && sid in sources && FindProject(now, sid).None?
    ensures SourcesLeft(start, sources, gone + {sid}, now) && New(start, gone, sid) == 0
  {
  }

  lemma SourceGone(start: seq<Project>, sources: set<string>, gone: set<string>, d: Draft, t: Project, s: Project)
    requires Mergeable(d.projects, t, s) && SourcesLeft(start, sources, gone, d.projects)
    requires s.id in sources && t.id !in sources
    ensures SourcesLeft(start, sources, gone + {s.id}, Merged(d, t, s).projects) && New(start, gone, s.id) == |s.artifacts|
    ensures FindProject(Merged(d, t, s).projects, t.id).Some?
  {
    hide Merged, Enlarged;
    FindsAfterMerge(d, t, s);
  }

  lemma OneSourceGood(start: Registry, sources: set<string>, d: Draft, tid: string, sid: string)
    requires Sound(start) && DraftGood(start, sources, d) && MergeSource(d, tid, sid).Ok?
    requires sid in sources && tid !in sources
    ensures DraftGood(start, sources, MergeSource(d, tid, sid).value)
  {
    var s, t := FindProject(d.projects, sid), FindProject(d.projects, tid);
    if s.Some? && t.Some? {
      MergeKeepsGood(start, sources, d, t.value, s.value);
    }
  }

  /** Merging a list of sources is merging the first and then the others. */
  lemma SourcesStep(ps: seq<Project>, gone: set<string>, d: Draft, tid: string, ids: seq<string>)
    requires MergeSources(d, tid, ids).Ok?
    ensures if ids == [] then
              MergeSources(d, tid, ids) == Ok(d) && gone + Elements(ids) == gone && Brought(ps, gone, ids) == 0
            else
              && MergeSource(d, tid, ids[0]).Ok?
              && MergeSources(MergeSource(d, tid, ids[0]).value, tid, ids[1..]) == MergeSources(d, tid, ids)
              && gone + {ids[0]} + Elements(ids[1..]) == gone + Elements(ids)
              && Brought(ps, gone, ids) == New(ps, gone, ids[0]) + Brought(ps, gone + {ids[0]}, ids[1..])
  {
  }

  lemma SpecsStep(ps: seq<Project>, gone: set<string>, d: Draft, specs: seq<Spec>, id: string)
    requires MergeSpecs(d, specs).Ok?
    ensures if specs == [] then
              MergeSpecs(d, specs) == Ok(d) && Named(gone, specs) == gone && BroughtTo(ps, gone, specs, id) == 0
            else
              var ready := d.(projects := OpenTarget(d.projects, specs[0]));
              var d' := MergeSources(ready, specs[0].id, specs[0].merge);
              var later := gone + Elements(specs[0].merge);
              && d'.Ok? && MergeSpecs(d'.value, specs[1..]) == MergeSpecs(d, specs)
              && Named(gone, specs) == Named(later, specs[1..])
              && BroughtTo(ps, gone, specs, id) ==
                 (if specs[0].id == id then Brought(ps, gone, specs[0].merge) else 0) + BroughtTo(ps, later, specs[1..], id)
  {
  }

  lemma GoodIsWellFormed(start: Registry, sources: set<string>, d: Draft)
    requires DraftGood(start, sources, d)
    ensures WellFormed(d.projects)
  {
  }

  lemma {:induction false} AllSources(start: Registry, sources: set<string>, gone: set<string>, d: Draft, tid: string,
                                      ids: seq<string>, id: string, count: nat)
    requires Sound(start) && DraftGood(start, sources, d) && FindProject(d.projects, tid).Some?
    requires MergeSources(d, tid, ids).Ok? && tid !in sources && forall sid :: sid in ids ==> sid in sources
    requires id !in sources && Tally(start, sources, gone, d, id, count)
    ensures Tally(start, sources, gone + Elements(ids), MergeSources(d, tid, ids).value, id,
                  count + if tid == id then Brought(start.projects, gone, ids) else 0)
    decreases |ids|
  {
    hide DraftGood, Tally, MergeSource, MergeSources, Brought, Sound, FindProject, WellFormed, New, Elements;
    SourcesStep(start.projects, gone, d, tid, ids);
    if ids != [] {
      assert ids[0] in ids && forall sid :: sid in ids[1..] ==> sid in ids;
      GoodIsWellFormed(start, sources, d);
      OneSourceGood(start, sources, d, tid, ids[0]);
      OneSource(start, sources, gone, d, tid, ids[0], id, count);
      AllSources(start, sources, gone + {ids[0]}, MergeSource(d, tid, ids[0]).value, tid, ids[1..], id,
                 count + if tid == id then New(start.projects, gone, ids[0]) else 0);
    }
  }

  lemma OpenTallies(start: Registry, sources: set<string>, gone: set<string>, d: Draft, spec: Spec, id: string, count: nat)
    requires WellFormed(d.projects) && spec.id !in sources && id !in sources && Tally(start, sources, gone, d, id, count)
    ensures Tally(start, sources, gone, d.(projects := OpenTarget(d.projects, spec)), id, count)
  {
    hide OpenTarget, WellFormed, FindArtifact, NextOf, Closed;
    OpenTargetShape(d.projects, spec);
    OpenKeepsNext(d.projects, spec);
    var d' := d.(projects := OpenTarget(d.projects, spec));
    assert forall a :: TakenOver(start.projects, d'.projects, a) ==> TakenOver(start.projects, d.projects, a);
  }

  /** Opening a target changes nobody's next number. */
  lemma OpenKeepsNext(ps: seq<Project>, spec: Spec)
    requires WellFormed(ps)
    ensures forall id :: NextOf(OpenTarget(ps, spec), id) == NextOf(ps, id)
    ensures forall id :: Closed(OpenTarget(ps, spec), id) <==> Closed(ps, id)
  {
    match FindProject(ps, spec.id)
    case None =>
      var q := Project(spec.id, if spec.name.Some? then spec.name.value else spec.id, Some(1), []);
      forall id ensures FindProject(ps + [q], id) ==
          if FindProject(ps, id).Some? then FindProject(ps, id) else if q.id == id then Some(q) else None
      {
        FindAppended(ps, q, id);
      }
    case Some(p) =>
      if spec.name.Some? {
        ReplaceProjectShape(ps, p, p.(name := spec.name.value));
      }
  }

  lemma {:induction false} AllSpecs(start: Registry, sources: set<string>, gone: set<string>, d: Draft, specs: seq<Spec>,
                                    id: string, count: nat)
    requires Sound(start) && DraftGood(start, sources, d) && MergeSpecs(d, specs).Ok?
    requires forall spec :: spec in specs ==> spec.id !in sources && forall sid :: sid in spec.merge ==> sid in sources
    requires id !in sources && Tally(start, sources, gone, d, id, count)
    ensures Tally(start, sources, Named(gone, specs), MergeSpecs(d, specs).value, id,
                  count + BroughtTo(start.projects, gone, specs, id))
    decreases |specs|
  {
    hide OpenTarget, DraftGood, Tally, Brought, BroughtTo, Named, MergeSources, MergeSpecs, Sound, WellFormed,
      FindProject, Elements;
    SpecsStep(start.projects, gone, d, specs, id);
    if specs != [] {
      var spec := specs[0];
      var ready := d.(projects := OpenTarget(d.projects, spec));
      OpenKeepsGood(start, sources, d, spec);
      GoodIsWellFormed(start, sources, d);
      OpenTargetShape(d.projects, spec);
      OpenTallies(start, sources, gone, d, spec, id, count);
      SourcesKeepGood(start, sources, ready, spec.id, spec.merge);
      AllSources(start, sources, gone, ready, spec.id, spec.merge, id, count);
      AllSpecs(start, sources, gone + Elements(spec.merge), MergeSources(ready, spec.id, spec.merge).value, specs[1..], id,
               count + if spec.id == id then Brought(start.projects, gone, spec.merge) else 0);
    }
  }

  lemma {:induction false} NothingBrought(ps: seq<Project>, gone: set<string>, specs: seq<Spec>, id: string)
    requires forall spec :: spec in specs ==> spec.id != id
    ensures BroughtTo(ps, gone, specs, id) == 0
    decreases |specs|
  {
    if specs != [] {
      NothingBrought(ps, gone + Elements(specs[0].merge), specs[1..], id);
    }
  }

  lemma SourcesAssignNothing(start: Registry, specs: seq<Spec>, d: Draft, a: Address)
    requires SourcesAreNotTargets(specs) && a.p in Sources(specs) && DraftSources(start, Sources(specs), d)
    ensures !TakenOver(start.projects, d.projects, a) && !NumberAssigned(start.projects, specs, a)
  {
    NothingBrought(start.projects, {}, specs, a.p);
  }

  /** The numbers taken over are those that counting the sources' artifacts says are assigned, and each redirect at
      or under one of them is deleted. */
  lemma TakenOverIffAssigned(start: Registry, specs: seq<Spec>, a: Address)
    requires Sound(start) && SourcesAreNotTargets(specs) && MergeSpecs(StartDraft(start), specs).Ok?
    ensures var d := MergeSpecs(StartDraft(start), specs).value;
            && (TakenOver(start.projects, d.projects, a) <==> NumberAssigned(start.projects, specs, a))
            && (TakenOver(start.projects, d.projects, a) ==> a !in d.redirects)
  {
    var sources := Sources(specs);
    hide Sound, DraftGood, MergeSpecs, WellFormed, StartDraft, FindArtifact, FindProject;
    var d := MergeSpecs(StartDraft(start), specs).value;
    MergesKeepEverything(start, specs);
    GoodHasSources(start, sources, d);
    if a.p in sources {
      SourcesAssignNothing(start, specs, d, a);
    } else {
      StartIsGood(start, sources);
      StartTallies(start, sources, a.p);
      AllSpecs(start, sources, {}, StartDraft(start), specs, a.p, 0);
      if !a.ProjectAt? && Lookup(start.projects, a.p, a.n).Some? && !Closed(start.projects, a.p) {
        NumbersBelowNext(start, a.p, a.n);
      }
    }
  }

  lemma StartIsGood(start: Registry, sources: set<string>)
    requires Sound(start)
    ensures DraftGood(start, sources, StartDraft(start))
  {
    var d := StartDraft(start);
    forall b | IsVersion(start.projects, b) ensures Follow(d.mapping, b) == b {
    }
  }

  lemma GoodHasSources(start: Registry, sources: set<string>, d: Draft)
    requires DraftGood(start, sources, d)
    ensures DraftSources(start, sources, d)
  {
  }

  lemma StartTallies(start: Registry, sources: set<string>, id: string)
    ensures Tally(start, sources, {}, StartDraft(start), id, 0)
  {
  }

  lemma NumbersBelowNext(start: Registry, p: string, n: nat)
    requires Sound(start) && Lookup(start.projects, p, n).Some? && !Closed(start.projects, p)
    ensures n < NextOf(start.projects, p)
  {
    assert FindProject(start.projects, p).value in start.projects;
  }

  lemma {:induction false} NamedHolds(gone: set<string>, specs: seq<Spec>, id: string)
    requires id in gone || id in Sources(specs)
    ensures id in Named(gone, specs)
    decreases |specs|
  {
    if specs != [] {
      if id !in gone && id !in specs[0].merge {
        var spec :| spec in specs && id in spec.merge;
        assert spec in specs[1..];
      }
      NamedHolds(gone + Elements(specs[0].merge), specs[1..], id);
    }
  }

  /** Every source the plan names is gone in the end. */
  lemma SourcesGone(start: Registry, specs: seq<Spec>, id: string)
    requires Sound(start) && SourcesAreNotTargets(specs) && MergeSpecs(StartDraft(start), specs).Ok?
    requires id in Sources(specs)
    ensures FindProject(MergeSpecs(StartDraft(start), specs).value.projects, id).None?
  {
    var sources, other := Sources(specs), specs[0].id;
    assert specs[0] in specs;
    StartIsGood(start, sources);
    StartTallies(start, sources, other);
    hide Sound, DraftGood, MergeSpecs, WellFormed, StartDraft, FindArtifact, FindProject, Counted, TakenDeleted;
    AllSpecs(start, sources, {}, StartDraft(start), specs, other, 0);
    NamedHolds({}, specs, id);
  }

  /** The merges move the addresses of the sources, and no other. */
  lemma MovedIffSource(start: Registry, specs: seq<Spec>, a: Address)
    requires Sound(start) && SourcesAreNotTargets(specs) && MergeSpecs(StartDraft(start), specs).Ok?
    requires Live(start.projects, a)
    ensures a in MergeSpecs(StartDraft(start), specs).value.mapping <==> a.p in Sources(specs)
  {
    hide Sound, MergeSpecs, WellFormed, StartDraft, FindArtifact;
    MergesKeepEverything(start, specs);
    if a.p in Sources(specs) {
      SourcesGone(start, specs, a.p);
    }
  }
}

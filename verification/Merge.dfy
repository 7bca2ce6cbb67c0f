/** The first stage of grouping: whole projects are merged into others, artifact by artifact. Each artifact gets the
    target's next number and its versions a name with the source's id before it; the registry being rewritten, the
    mapping of addresses and the links to make are kept together in a draft. */
module Merge {
  import opened Basics
  import opened Sorting
  import opened Registry
  import opened AddressMaps

  datatype Spec = Spec(id: string, name: Option<string>, merge: seq<string>)

  /** A revision of `project` that must be linked to `source`'s revision of that name. */
  datatype Link = Link(project: string, revision: string, source: string, sourceRevision: string)

  datatype PlanError =
    | NoNextNumber
    | RevisionCollision
    | VersionListedTwice
    | VersionsWithoutArtifact
    | FoldedAwayButListed
    | NothingLeft

  /** The registry being rewritten, and what the rewrite has recorded so far. */
  datatype Draft = Draft(projects: seq<Project>, redirects: map<Address, Address>,
                         mapping: map<Address, Address>, links: seq<Link>)

  function NumberKey(x: Artifact): Key
  {
    Key(x.number, 0, 0)
  }

  function ByNumber(xs: seq<Artifact>): (ys: seq<Artifact>)
    ensures |ys| == |xs|
  {
    SortBy(NumberKey, xs)
  }

  function Prefixed(source: string, revision: string): string
  {
    source + "-" + revision
  }

  function PrefixedVersions(source: string, vs: seq<Version>): (ws: seq<Version>)
    ensures |ws| == |vs|
    ensures forall i :: 0 <= i < |vs| ==> ws[i] == vs[i].(revision := Prefixed(source, vs[i].revision))
  {
    if vs == [] then []
    else [vs[0].(revision := Prefixed(source, vs[0].revision))] + PrefixedVersions(source, vs[1..])
  }

  function Adopt(source: string, x: Artifact, n: nat): Artifact
  {
    x.(number := n, versions := PrefixedVersions(source, x.versions))
  }

  /** `xs` as artifacts `base`, `base + 1`, ... of another project; their revisions carry the source's name. */
  function Adopted(source: string, xs: seq<Artifact>, base: nat): (ys: seq<Artifact>)
    ensures |ys| == |xs|
    ensures forall i :: 0 <= i < |xs| ==> ys[i] == Adopt(source, xs[i], base + i)
  {
    if xs == [] then []
    else [Adopt(source, xs[0], base)] + Adopted(source, xs[1..], base + 1)
  }

  /** The number the next artifact of `t` gets. */
  function Base(t: Project): nat
  {
    if t.next.Some? then t.next.value else 0
  }

  function Enlarged(t: Project, s: Project): (t': Project)
    ensures t'.id == t.id
  {
    if s.artifacts == [] then t
    else t.(artifacts := t.artifacts + Adopted(s.id, ByNumber(s.artifacts), Base(t)),
            next := Some(Base(t) + |s.artifacts|))
  }

  /** `s` is gone and `t` has become `t'`. */
  function Absorbed(ps: seq<Project>, t': Project, s: Project): seq<Project>
  {
    FilterMap((p: Project) => if p.id == s.id then None else Some(if p.id == t'.id then t' else p), ps)
  }

  function MergeTarget(s: Project, t: string, base: nat, a: Address): Address
  {
    if a.p != s.id then a
    else
      match a
      case ProjectAt(_) => ProjectAt(t)
      case ArtifactAt(_, n) => ArtifactAt(t, base + PositionOf(ByNumber(s.artifacts), n))
      case VersionAt(_, n, k) => VersionAt(t, base + PositionOf(ByNumber(s.artifacts), n), k)
  }

  function MergeMoves(ps: seq<Project>, s: Project, t: string, base: nat): map<Address, Address>
  {
    Moves(ps, a => MergeTarget(s, t, base, a))
  }

  predicate Collides(t: Project, s: Project)
  {
    exists x, v :: x in s.artifacts && v in x.versions && Prefixed(s.id, v.revision) in Revisions(t)
  }

  function VersionLinks(t: string, s: string, vs: seq<Version>): seq<Link>
  {
    if vs == [] then []
    else [Link(t, Prefixed(s, vs[0].revision), s, vs[0].revision)] + VersionLinks(t, s, vs[1..])
  }

  function LinksOf(t: string, s: string, xs: seq<Artifact>): seq<Link>
  {
    if xs == [] then []
    else VersionLinks(t, s, xs[0].versions) + LinksOf(t, s, xs[1..])
  }

  /** Redirects at or under the numbers `base`, ..., `base + count - 1` of `t` yield to the artifacts given them. */
  function YieldedRange(redirects: map<Address, Address>, t: string, base: nat, count: nat): map<Address, Address>
  {
    map a | a in redirects && !(!a.ProjectAt? && a.p == t && base <= a.n < base + count) :: redirects[a]
  }

  /** Merge project `s` into project `t`. */
  function Merged(d: Draft, t: Project, s: Project): Draft
  {
    var moves := MergeMoves(d.projects, s, t.id, Base(t));
    Draft(Absorbed(d.projects, Enlarged(t, s), s),
          Carried(YieldedRange(d.redirects, t.id, Base(t), |s.artifacts|), moves),
          Carried(d.mapping, moves),
          d.links + LinksOf(t.id, s.id, ByNumber(s.artifacts)))
  }

  /** A source that is not there is skipped. */
  function MergeSource(d: Draft, tid: string, sid: string): Result<Draft, PlanError>
  {
    match FindProject(d.projects, sid)
    case None => Ok(d)
    case Some(s) =>
      match FindProject(d.projects, tid)
      case None => Ok(d)
      case Some(t) =>
        if s.artifacts != [] && t.next.None? then Err(NoNextNumber)
        else if Collides(t, s) then Err(RevisionCollision)
        else Ok(Merged(d, t, s))
  }

  function MergeSources(d: Draft, tid: string, sids: seq<string>): Result<Draft, PlanError>
    decreases |sids|
  {
    if sids == [] then Ok(d)
    else
      match MergeSource(d, tid, sids[0])
      case Err(e) => Err(e)
      case Ok(d') => MergeSources(d', tid, sids[1..])
  }

  /** The target of a merge is made if it is not there, and takes the name the plan gives. */
  function OpenTarget(ps: seq<Project>, spec: Spec): seq<Project>
  {
    match FindProject(ps, spec.id)
    case None => ps + [Project(spec.id, if spec.name.Some? then spec.name.value else spec.id, Some(1), [])]
    case Some(p) => if spec.name.None? then ps else ReplaceProject(ps, p.(name := spec.name.value))
  }

  function MergeSpecs(d: Draft, specs: seq<Spec>): Result<Draft, PlanError>
    decreases |specs|
  {
    if specs == [] then Ok(d)
    else
      match MergeSources(d.(projects := OpenTarget(d.projects, specs[0])), specs[0].id, specs[0].merge)
      case Err(e) => Err(e)
      case Ok(d') => MergeSpecs(d', specs[1..])
  }

  // One merge.

  ghost predicate Mergeable(ps: seq<Project>, t: Project, s: Project)
  {
    && WellFormed(ps) && FindProject(ps, t.id) == Some(t) && FindProject(ps, s.id) == Some(s)
    && s.id != t.id && (s.artifacts == [] || t.next.Some?)
  }

  lemma ByNumberKeeps(xs: seq<Artifact>)
    requires DistinctNumbers(xs)
    ensures DistinctNumbers(ByNumber(xs))
    ensures forall x :: x in ByNumber(xs) <==> x in xs
  {
    SortByPermutes(NumberKey, xs);
    PermutationDistinctNumbers(xs, ByNumber(xs));
  }

  lemma AdoptKeeps(source: string, x: Artifact, n: nat)
    ensures Holds(Adopt(source, x, n)) == Holds(x)
    ensures WellVersioned(x) ==> WellVersioned(Adopt(source, x, n))
  {
    var y := Adopt(source, x, n);
    forall u | u in Holds(x) ensures u in Holds(y) {
      var j :| 0 <= j < |x.versions| && x.versions[j].uid == u;
      assert y.versions[j] in y.versions;
    }
    forall u | u in Holds(y) ensures u in Holds(x) {
      var j :| 0 <= j < |y.versions| && y.versions[j].uid == u;
      assert x.versions[j] in x.versions;
    }
  }

  lemma AdoptedAt(source: string, xs: seq<Artifact>, base: nat, i: nat)
    requires i < |xs|
    ensures FindArtifact(Adopted(source, xs, base), base + i) == Some(Adopt(source, xs[i], base + i))
  {
    hide FindArtifact, Adopted;
    FindArtifactAt(Adopted(source, xs, base), i);
  }

  ghost predicate Numbers(t: Project, s: Project)
  {
    WellNumbered(t) && WellNumbered(s) && (s.artifacts == [] || t.next.Some?)
  }

  /** The target finds the source's artifacts under the numbers assigned. */
  lemma EnlargedAt(t: Project, s: Project, i: nat)
    requires Numbers(t, s) && i < |s.artifacts|
    ensures FindArtifact(Enlarged(t, s).artifacts, Base(t) + i) ==
            Some(Adopt(s.id, ByNumber(s.artifacts)[i], Base(t) + i))
  {
    hide FindArtifact, Adopted, Adopt, ByNumber, WellVersioned;
    AdoptedAt(s.id, ByNumber(s.artifacts), Base(t), i);
    FindArtifactConcat(t.artifacts, Adopted(s.id, ByNumber(s.artifacts), Base(t)), Base(t) + i);
  }

  /** It finds its own as before. */
  lemma EnlargedElsewhere(t: Project, s: Project, m: nat)
    requires Numbers(t, s) && !(Base(t) <= m < Base(t) + |s.artifacts|)
    ensures FindArtifact(Enlarged(t, s).artifacts, m) == FindArtifact(t.artifacts, m)
  {
    hide FindArtifact, Adopted, ByNumber, WellVersioned;
    if s.artifacts != [] {
      var ys := Adopted(s.id, ByNumber(s.artifacts), Base(t));
      FindArtifactConcat(t.artifacts, ys, m);
    }
  }

  lemma EnlargedWellNumbered(t: Project, s: Project)
    requires Numbers(t, s)
    ensures WellNumbered(Enlarged(t, s))
  {
    if s.artifacts != [] {
      var xs := ByNumber(s.artifacts);
      var ys := Adopted(s.id, xs, Base(t));
      ByNumberKeeps(s.artifacts);
      forall y | y in ys ensures WellVersioned(y) && Base(t) <= y.number < Base(t) + |xs| {
        var i :| 0 <= i < |ys| && ys[i] == y;
        assert xs[i] in s.artifacts;
        AdoptKeeps(s.id, xs[i], Base(t) + i);
      }
    }
  }

  lemma AbsorbedFindsProject(ps: seq<Project>, t': Project, s: Project, id: string)
    requires DistinctIds(ps) && FindProject(ps, t'.id).Some? && s.id != t'.id
    ensures FindProject(Absorbed(ps, t', s), id) ==
            if id == s.id then None else if id == t'.id then Some(t') else FindProject(ps, id)
    ensures DistinctIds(Absorbed(ps, t', s))
  {
    FilterDistinctIds((p: Project) => if p.id == s.id then None else Some(if p.id == t'.id then t' else p), ps);
    FindProjectMap((p: Project) => if p.id == s.id then None else Some(if p.id == t'.id then t' else p), ps, id);
  }

  lemma AbsorbedWellFormed(ps: seq<Project>, t: Project, s: Project)
    requires Mergeable(ps, t, s)
    ensures WellFormed(Absorbed(ps, Enlarged(t, s), s))
  {
    var t' := Enlarged(t, s);
    AbsorbedFindsProject(ps, t', s, "");
    EnlargedWellNumbered(t, s);
    var f := (p: Project) => if p.id == s.id then None else Some(if p.id == t'.id then t' else p);
    FilterMembers(f, ps);
    forall q | q in Absorbed(ps, t', s) ensures WellNumbered(q) {
      var p :| p in ps && f(p) == Some(q);
    }
  }

  /** The place by number of the source's artifact `n`. */
  lemma PlaceOf(s: Project, n: nat) returns (i: nat)
    requires WellNumbered(s) && FindArtifact(s.artifacts, n).Some?
    ensures i == PositionOf(ByNumber(s.artifacts), n) < |s.artifacts|
    ensures ByNumber(s.artifacts)[i] == FindArtifact(s.artifacts, n).value
  {
    SortByPermutes(NumberKey, s.artifacts);
    PermutedFinds(s.artifacts, ByNumber(s.artifacts), n);
    i := PositionOf(ByNumber(s.artifacts), n);
  }

  /** Where the artifact at `a` is after the merge, and what it has become. */
  lemma MergeLookup(ps: seq<Project>, t: Project, s: Project, a: Address)
    requires Mergeable(ps, t, s) && !a.ProjectAt? && Lookup(ps, a.p, a.n).Some?
    ensures var b := MergeTarget(s, t.id, Base(t), a);
            var x := Lookup(ps, a.p, a.n).value;
            Lookup(Absorbed(ps, Enlarged(t, s), s), b.p, b.n) == Some(if a.p == s.id then Adopt(s.id, x, b.n) else x)
  {
    hide FindArtifact, FindProject, Enlarged, ByNumber, Adopt, Absorbed, PositionOf;
    AbsorbedFindsProject(ps, Enlarged(t, s), s, if a.p == s.id then t.id else a.p);
    if a.p == s.id {
      var i := PlaceOf(s, a.n);
      EnlargedAt(t, s, i);
    } else if a.p == t.id {
      EnlargedElsewhere(t, s, a.n);
    }
  }

  lemma MergeTargetFinds(ps: seq<Project>, t: Project, s: Project, a: Address)
    requires Mergeable(ps, t, s) && Live(ps, a)
    ensures At(Absorbed(ps, Enlarged(t, s), s), MergeTarget(s, t.id, Base(t), a)) == At(ps, a)
  {
    hide FindArtifact, FindProject, Enlarged, ByNumber, Absorbed, PositionOf, WellNumbered;
    if a.ProjectAt? {
      AbsorbedFindsProject(ps, Enlarged(t, s), s, if a.p == s.id then t.id else a.p);
    } else {
      MergeLookup(ps, t, s, a);
      AdoptKeeps(s.id, Lookup(ps, a.p, a.n).value, MergeTarget(s, t.id, Base(t), a).n);
    }
  }

  lemma MergeCarries(ps: seq<Project>, t: Project, s: Project)
    requires Mergeable(ps, t, s)
    ensures Carries(ps, MergeMoves(ps, s, t.id, Base(t)), Absorbed(ps, Enlarged(t, s), s), true)
  {
    forall a | Live(ps, a)
      ensures At(Absorbed(ps, Enlarged(t, s), s), MergeTarget(s, t.id, Base(t), a)) == At(ps, a)
    {
      MergeTargetFinds(ps, t, s, a);
    }
  }

  /** The source's artifact at place `i` by number. */
  lemma AtPlace(s: Project, i: nat)
    requires WellNumbered(s) && i < |s.artifacts|
    ensures var x := ByNumber(s.artifacts)[i];
            FindArtifact(s.artifacts, x.number) == Some(x) && PositionOf(ByNumber(s.artifacts), x.number) == i
  {
    SortByPermutes(NumberKey, s.artifacts);
    PermutedAt(s.artifacts, ByNumber(s.artifacts), i);
  }

  lemma InsidePredecessor(ps: seq<Project>, t: Project, s: Project, i: nat, k: nat)
    requires Mergeable(ps, t, s) && i < |s.artifacts|
    requires 1 <= k <= |ByNumber(s.artifacts)[i].versions|
    ensures var a := VersionAt(s.id, ByNumber(s.artifacts)[i].number, k);
            IsVersion(ps, a) && MergeTarget(s, t.id, Base(t), a) == VersionAt(t.id, Base(t) + i, k)
  {
    AtPlace(s, i);
  }

  lemma MergePredecessor(ps: seq<Project>, t: Project, s: Project, b: Address) returns (a: Address)
    requires Mergeable(ps, t, s) && IsVersion(Absorbed(ps, Enlarged(t, s), s), b)
    ensures IsVersion(ps, a) && MergeTarget(s, t.id, Base(t), a) == b
  {
    hide FindArtifact, FindProject, Enlarged, ByNumber, Absorbed, PositionOf;
    AbsorbedFindsProject(ps, Enlarged(t, s), s, b.p);
    if b.p == t.id && Base(t) <= b.n < Base(t) + |s.artifacts| {
      var i := b.n - Base(t);
      EnlargedAt(t, s, i);
      InsidePredecessor(ps, t, s, i, b.k);
      a := VersionAt(s.id, ByNumber(s.artifacts)[i].number, b.k);
    } else {
      a := b;
      if b.p == t.id {
        EnlargedElsewhere(t, s, b.n);
      }
    }
  }

  lemma MergeCovers(ps: seq<Project>, t: Project, s: Project)
    requires Mergeable(ps, t, s)
    ensures Covers(ps, MergeMoves(ps, s, t.id, Base(t)), Absorbed(ps, Enlarged(t, s), s))
  {
    forall b | IsVersion(Absorbed(ps, Enlarged(t, s), s), b)
      ensures exists a :: IsVersion(ps, a) && Follow(MergeMoves(ps, s, t.id, Base(t)), a) == b
    {
      var a := MergePredecessor(ps, t, s, b);
    }
  }

  // What holds of the draft after any number of merges.

  function Sources(specs: seq<Spec>): set<string>
  {
    set spec, id | spec in specs && id in spec.merge :: id
  }

  /** No project is both merged away and a target. */
  predicate SourcesAreNotTargets(specs: seq<Spec>)
  {
    forall spec :: spec in specs ==> spec.id !in Sources(specs)
  }

  ghost predicate DraftSound(start: Registry, d: Draft)
  {
    && WellFormed(d.projects)
    && EndsLive(d.redirects, d.projects)
    && EndsLive(d.mapping, d.projects)
    && Carries(start.projects, d.mapping, d.projects, true)
    && Covers(start.projects, d.mapping, d.projects)
  }

  /** Sources stay as they were until they are merged away; only their addresses have moved. */
  ghost predicate DraftSources(start: Registry, sources: set<string>, d: Draft)
  {
    && (forall a :: a in d.mapping ==>
          a.p in sources && Live(start.projects, a) && FindProject(d.projects, a.p).None? && d.mapping[a].p !in sources)
    && forall id :: id in sources && FindProject(d.projects, id).Some? ==>
         FindProject(d.projects, id) == FindProject(start.projects, id)
  }

  /** The artifacts of every other project stay where and as they were. */
  ghost predicate DraftGrows(start: Registry, sources: set<string>, d: Draft)
  {
    forall p, n :: p !in sources && Lookup(start.projects, p, n).Some? ==>
      Lookup(d.projects, p, n) == Lookup(start.projects, p, n)
  }

  /** `a` lies at or under an artifact number that was free at the start and no longer is. */
  ghost predicate TakenOver(start: seq<Project>, now: seq<Project>, a: Address)
  {
    !a.ProjectAt? && Lookup(start, a.p, a.n).None? && Lookup(now, a.p, a.n).Some?
  }

  /** Address `a`, retired at the start, still redirects to what it did, unless its number was taken over. */
  ghost predicate RetiredKept(start: Registry, sources: set<string>, d: Draft, a: Address)
    requires a in start.redirects
  {
    || (a.p !in sources && TakenOver(start.projects, d.projects, a))
    || (a in d.redirects && At(d.projects, d.redirects[a]) == At(start.projects, start.redirects[a]))
  }

  ghost predicate DraftRetired(start: Registry, sources: set<string>, d: Draft)
  {
    forall a :: a in start.redirects ==> RetiredKept(start, sources, d, a)
  }

  /** Version `a` of the start still has its revision, or the merged name for it, with the link that makes it so. */
  ghost predicate RevisionKept(start: Registry, d: Draft, a: Address)
    requires RevisionAt(start.projects, a).Some?
  {
    var name, b := RevisionAt(start.projects, a).value, Follow(d.mapping, a);
    if a in d.mapping then
      RevisionAt(d.projects, b) == Some(Prefixed(a.p, name)) && Link(b.p, Prefixed(a.p, name), a.p, name) in d.links
    else RevisionAt(d.projects, b) == Some(name)
  }

  ghost predicate DraftRevisions(start: Registry, d: Draft)
  {
    forall a :: RevisionAt(start.projects, a).Some? ==> RevisionKept(start, d, a)
  }

  ghost predicate DraftGood(start: Registry, sources: set<string>, d: Draft)
  {
    && DraftSound(start, d)
    && DraftSources(start, sources, d)
    && DraftGrows(start, sources, d)
    && DraftRetired(start, sources, d)
    && DraftRevisions(start, d)
  }

  lemma MergeKeepsSound(start: Registry, sources: set<string>, d: Draft, t: Project, s: Project)
    requires DraftSound(start, d) && DraftSources(start, sources, d) && Mergeable(d.projects, t, s)
    ensures DraftSound(start, Merged(d, t, s))
  {
    var moves := MergeMoves(d.projects, s, t.id, Base(t));
    var after := Merged(d, t, s).projects;
    AbsorbedWellFormed(d.projects, t, s);
    MergeCarries(d.projects, t, s);
    MergeCovers(d.projects, t, s);
    hide WellFormed, MergeMoves, Absorbed, Carries, Covers;
    CarriedEndsLive(YieldedRange(d.redirects, t.id, Base(t), |s.artifacts|), moves, d.projects, after, true);
    CarriedEndsLive(d.mapping, moves, d.projects, after, true);
    CarriedCarries(start.projects, d.mapping, d.projects, moves, after, true);
    CarriedCovers(start.projects, d.mapping, d.projects, moves, after);
  }

  lemma MovesUnderSource(ps: seq<Project>, t: Project, s: Project, a: Address)
    requires a in MergeMoves(ps, s, t.id, Base(t))
    ensures a.p == s.id && Live(ps, a) && MergeMoves(ps, s, t.id, Base(t))[a].p == t.id
  {
  }

  lemma {:induction false} LinkListed(t: string, s: string, xs: seq<Artifact>, x: Artifact, k: nat)
    requires x in xs && 1 <= k <= |x.versions|
    ensures Link(t, Prefixed(s, x.versions[k - 1].revision), s, x.versions[k - 1].revision) in LinksOf(t, s, xs)
  {
    if x == xs[0] {
      VersionLinkListed(t, s, x.versions, k - 1);
    } else {
      LinkListed(t, s, xs[1..], x, k);
    }
  }

  lemma {:induction false} VersionLinkListed(t: string, s: string, vs: seq<Version>, i: nat)
    requires i < |vs|
    ensures Link(t, Prefixed(s, vs[i].revision), s, vs[i].revision) in VersionLinks(t, s, vs)
  {
    if i > 0 {
      VersionLinkListed(t, s, vs[1..], i - 1);
    }
  }

  lemma FoundSource(ps: seq<Project>, t: Project, s: Project)
    requires Mergeable(ps, t, s)
    ensures FindProject(ps, s.id) == Some(s) && WellNumbered(s) && s.id != t.id
  {
  }

  lemma MergeKeepsRevision(start: Registry, sources: set<string>, d: Draft, t: Project, s: Project, a: Address)
    requires DraftSources(start, sources, d) && Mergeable(d.projects, t, s) && s.id in sources
    requires RevisionAt(start.projects, a).Some? && RevisionKept(start, d, a)
    ensures RevisionKept(start, Merged(d, t, s), a)
  {
    hide Mergeable, Enlarged, Absorbed, LinksOf, FindProject, FindArtifact, Carried, YieldedRange, MergeMoves,
      WellFormed, ByNumber, PositionOf;
    var b := Follow(d.mapping, a);
    FoundSource(d.projects, t, s);
    MergeLookup(d.projects, t, s, b);
    if b.p == s.id {
      SourceLinked(d.projects, t.id, s, b);
    }
    MergeFollows(d, t, s, a);
  }

  lemma SourceLinked(ps: seq<Project>, t: string, s: Project, b: Address)
    requires FindProject(ps, s.id) == Some(s) && WellNumbered(s) && IsVersion(ps, b) && b.p == s.id
    ensures var name := RevisionAt(ps, b).value;
            Link(t, Prefixed(s.id, name), s.id, name) in LinksOf(t, s.id, ByNumber(s.artifacts))
  {
    hide LinksOf, ByNumber, WellNumbered, PositionOf;
    var i := PlaceOf(s, b.n);
    LinkListed(t, s.id, ByNumber(s.artifacts), ByNumber(s.artifacts)[i], b.k);
  }

  /** One merge sends each address on from where the earlier ones sent it. */
  lemma MergeFollows(d: Draft, t: Project, s: Project, a: Address)
    requires a in d.mapping ==> !Live(d.projects, a)
    requires Live(d.projects, Follow(d.mapping, a)) && s.id != t.id
    ensures Follow(Merged(d, t, s).mapping, a) == MergeTarget(s, t.id, Base(t), Follow(d.mapping, a))
    ensures a in Merged(d, t, s).mapping <==> a in d.mapping || a.p == s.id
  {
  }

  lemma MergedFindsProject(d: Draft, t: Project, s: Project, id: string)
    requires Mergeable(d.projects, t, s)
    ensures FindProject(Merged(d, t, s).projects, id) ==
            if id == s.id then None else if id == t.id then Some(Enlarged(t, s)) else FindProject(d.projects, id)
  {
    AbsorbedFindsProject(d.projects, Enlarged(t, s), s, id);
  }

  /** What a source's address has been moved to once one more source is merged. */
  lemma SourceEntry(start: Registry, sources: set<string>, d: Draft, t: Project, s: Project, a: Address)
    requires DraftSources(start, sources, d) && Mergeable(d.projects, t, s)
    requires s.id in sources && t.id !in sources && a in Merged(d, t, s).mapping
    ensures a.p in sources && Live(start.projects, a)
    ensures a.p == s.id || FindProject(d.projects, a.p).None?
    ensures Merged(d, t, s).mapping[a].p !in sources
  {
    var moves := MergeMoves(d.projects, s, t.id, Base(t));
    FoundSource(d.projects, t, s);
    hide Mergeable, WellNumbered, MergeMoves, Carried, FindProject, YieldedRange, Enlarged, Absorbed;
    CarriedEntry(d.mapping, moves, a);
    if a in moves {
      MovesUnderSource(d.projects, t, s, a);
    } else if d.mapping[a] in moves {
      MovesUnderSource(d.projects, t, s, d.mapping[a]);
    }
  }

  lemma MergeKeepsSources(start: Registry, sources: set<string>, d: Draft, t: Project, s: Project)
    requires DraftSources(start, sources, d) && Mergeable(d.projects, t, s)
    requires s.id in sources && t.id !in sources
    ensures DraftSources(start, sources, Merged(d, t, s))
  {
    hide Mergeable, Merged, FindProject, Live;
    var d' := Merged(d, t, s);
    FoundSource(d.projects, t, s);
    forall a | a in d'.mapping
      ensures a.p in sources && Live(start.projects, a) && FindProject(d'.projects, a.p).None? && d'.mapping[a].p !in sources
    {
      SourceEntry(start, sources, d, t, s, a);
      MergedFindsProject(d, t, s, a.p);
    }
    forall id | id in sources && FindProject(d'.projects, id).Some?
      ensures FindProject(d'.projects, id) == FindProject(start.projects, id)
    {
      MergedFindsProject(d, t, s, id);
    }
  }

  lemma MergeKeepsOthers(start: Registry, sources: set<string>, d: Draft, t: Project, s: Project, p: string, n: nat)
    requires DraftGrows(start, sources, d) && Mergeable(d.projects, t, s)
    requires s.id in sources && p !in sources && Lookup(start.projects, p, n).Some?
    ensures Lookup(Merged(d, t, s).projects, p, n) == Lookup(start.projects, p, n)
  {
    MergeLookup(d.projects, t, s, ArtifactAt(p, n));
  }

  /** A retired address is no source's, so a merge moves only what it leads to. */
  lemma RetiredNotMoved(start: Registry, sources: set<string>, d: Draft, t: Project, s: Project, a: Address)
    requires Unshadowed(start) && DraftSources(start, sources, d) && s.id in sources
    requires FindProject(d.projects, s.id) == Some(s) && a in start.redirects
    ensures a !in MergeMoves(d.projects, s, t.id, Base(t))
  {
    if a in MergeMoves(d.projects, s, t.id, Base(t)) {
      MovesUnderSource(d.projects, t, s, a);
      assert FindProject(start.projects, s.id) == Some(s);
      assert Shadows(start.projects, a);
    }
  }

  lemma MergeKeepsRetired(start: Registry, sources: set<string>, d: Draft, t: Project, s: Project, a: Address)
    requires Unshadowed(start) && EndsLive(d.redirects, d.projects) && a in start.redirects
    requires DraftSources(start, sources, d) && DraftGrows(start, sources, d) && RetiredKept(start, sources, d, a)
    requires Mergeable(d.projects, t, s) && s.id in sources && t.id !in sources
    ensures RetiredKept(start, sources, Merged(d, t, s), a)
  {
    RetiredNotMoved(start, sources, d, t, s, a);
    var d' := Merged(d, t, s);
    if a.p !in sources && TakenOver(start.projects, d.projects, a) {
      MergeLookup(d.projects, t, s, a);
    } else if !a.ProjectAt? && a.p == t.id && Base(t) <= a.n < Base(t) + |s.artifacts| {
      NumberWasFree(start, sources, d, t, s, a.n);
    } else {
      MergeTargetFinds(d.projects, t, s, d.redirects[a]);
    }
  }

  /** A number a merge assigns was free at the start, and is not free afterwards. */
  lemma NumberWasFree(start: Registry, sources: set<string>, d: Draft, t: Project, s: Project, n: nat)
    requires DraftGrows(start, sources, d) && Mergeable(d.projects, t, s) && t.id !in sources
    requires Base(t) <= n < Base(t) + |s.artifacts|
    ensures Lookup(start.projects, t.id, n).None?
    ensures Lookup(Merged(d, t, s).projects, t.id, n).Some?
  {
    AbsorbedFindsProject(d.projects, Enlarged(t, s), s, t.id);
    EnlargedAt(t, s, n - Base(t));
  }

  lemma MergeKeepsGood(start: Registry, sources: set<string>, d: Draft, t: Project, s: Project)
    requires Sound(start) && DraftGood(start, sources, d)
    requires Mergeable(d.projects, t, s) && s.id in sources && t.id !in sources
    ensures DraftGood(start, sources, Merged(d, t, s))
  {
    MergeKeepsSound(start, sources, d, t, s);
    MergeKeepsSources(start, sources, d, t, s);
    hide DraftSound, Mergeable;
    forall p, n | p !in sources && Lookup(start.projects, p, n).Some?
      ensures Lookup(Merged(d, t, s).projects, p, n) == Lookup(start.projects, p, n)
    {
      MergeKeepsOthers(start, sources, d, t, s, p, n);
    }
    forall a | a in start.redirects ensures RetiredKept(start, sources, Merged(d, t, s), a) {
      MergeKeepsRetired(start, sources, d, t, s, a);
    }
    forall a | RevisionAt(start.projects, a).Some? ensures RevisionKept(start, Merged(d, t, s), a) {
      MergeKeepsRevision(start, sources, d, t, s, a);
    }
  }

  // Opening a merge's target.

  /** `after` has every project and artifact `before` has, and no other artifact. */
  ghost predicate SameArtifacts(before: seq<Project>, after: seq<Project>)
  {
    && (forall p :: FindProject(before, p).Some? ==> FindProject(after, p).Some?)
    && forall p, n :: Lookup(after, p, n) == Lookup(before, p, n)
  }

  lemma {:induction false} FindAppended(ps: seq<Project>, q: Project, id: string)
    ensures FindProject(ps + [q], id) ==
            if FindProject(ps, id).Some? then FindProject(ps, id) else if q.id == id then Some(q) else None
  {
    if ps == [] {
    } else {
      assert (ps + [q])[1..] == ps[1..] + [q];
      FindAppended(ps[1..], q, id);
    }
  }

  lemma OpenTargetShape(ps: seq<Project>, spec: Spec)
    requires WellFormed(ps)
    ensures WellFormed(OpenTarget(ps, spec)) && SameArtifacts(ps, OpenTarget(ps, spec))
    ensures forall id :: id != spec.id ==> FindProject(OpenTarget(ps, spec), id) == FindProject(ps, id)
    ensures FindProject(OpenTarget(ps, spec), spec.id).Some?
  {
    match FindProject(ps, spec.id)
    case None => AppendShape(ps, Project(spec.id, if spec.name.Some? then spec.name.value else spec.id, Some(1), []));
    case Some(p) =>
      if spec.name.Some? {
        RenameShape(ps, p, spec.name.value);
      }
  }

  lemma AppendShape(ps: seq<Project>, q: Project)
    requires WellFormed(ps) && FindProject(ps, q.id).None? && q.artifacts == []
    ensures WellFormed(ps + [q]) && SameArtifacts(ps, ps + [q])
    ensures forall id :: FindProject(ps + [q], id) == if id == q.id then Some(q) else FindProject(ps, id)
  {
    hide FindProject;
    assert WellNumbered(q);
    forall id ensures FindProject(ps + [q], id) ==
        if FindProject(ps, id).Some? then FindProject(ps, id) else if q.id == id then Some(q) else None
    {
      FindAppended(ps, q, id);
    }
  }

  lemma RenameShape(ps: seq<Project>, p: Project, name: string)
    requires WellFormed(ps) && FindProject(ps, p.id) == Some(p)
    ensures var qs := ReplaceProject(ps, p.(name := name));
            && WellFormed(qs) && SameArtifacts(ps, qs)
            && forall id :: FindProject(qs, id) == if id == p.id then Some(p.(name := name)) else FindProject(ps, id)
  {
    assert WellNumbered(p.(name := name));
    ReplaceProjectShape(ps, p, p.(name := name));
  }

  lemma SameArtifactsKeep(before: seq<Project>, after: seq<Project>)
    requires SameArtifacts(before, after)
    ensures forall a :: Live(before, a) ==> At(after, a) == At(before, a)
    ensures forall a :: IsVersion(after, a) ==> IsVersion(before, a)
  {
  }

  lemma OpenKeepsGood(start: Registry, sources: set<string>, d: Draft, spec: Spec)
    requires DraftGood(start, sources, d) && spec.id !in sources
    ensures DraftGood(start, sources, d.(projects := OpenTarget(d.projects, spec)))
  {
    OpenTargetShape(d.projects, spec);
    SameArtifactsKeep(d.projects, OpenTarget(d.projects, spec));
    hide OpenTarget, WellFormed;
    OpenKeepsRest(start, sources, d, OpenTarget(d.projects, spec), spec.id);
  }

  lemma OpenKeepsRest(start: Registry, sources: set<string>, d: Draft, qs: seq<Project>, id: string)
    requires DraftGood(start, sources, d) && id !in sources
    requires WellFormed(qs) && SameArtifacts(d.projects, qs)
    requires forall other :: other != id ==> FindProject(qs, other) == FindProject(d.projects, other)
    ensures DraftGood(start, sources, d.(projects := qs))
  {
    hide WellFormed, At, FindProject, FindArtifact;
    SameArtifactsKeep(d.projects, qs);
    var d' := d.(projects := qs);
    forall b | IsVersion(qs, b) ensures exists a :: IsVersion(start.projects, a) && Follow(d.mapping, a) == b {
      assert IsVersion(d.projects, b);
    }
    assert Covers(start.projects, d.mapping, qs);
    assert DraftSound(start, d');
    assert DraftSources(start, sources, d');
    forall a | a in start.redirects ensures RetiredKept(start, sources, d', a) {
      assert RetiredKept(start, sources, d, a);
    }
    forall a | RevisionAt(start.projects, a).Some? ensures RevisionKept(start, d', a) {
      assert RevisionKept(start, d, a);
    }
  }

  // All merges of a plan.

  lemma {:induction false} SourcesKeepGood(start: Registry, sources: set<string>, d: Draft, tid: string, sids: seq<string>)
    requires Sound(start) && DraftGood(start, sources, d)
    requires tid !in sources && forall id :: id in sids ==> id in sources
    requires MergeSources(d, tid, sids).Ok?
    ensures DraftGood(start, sources, MergeSources(d, tid, sids).value)
    decreases |sids|
  {
    if sids != [] {
      var s, t := FindProject(d.projects, sids[0]), FindProject(d.projects, tid);
      assert sids[0] in sources;
      if s.Some? && t.Some? {
        MergeKeepsGood(start, sources, d, t.value, s.value);
      }
      SourcesKeepGood(start, sources, MergeSource(d, tid, sids[0]).value, tid, sids[1..]);
    }
  }

  lemma {:induction false} SpecsKeepGood(start: Registry, sources: set<string>, d: Draft, specs: seq<Spec>)
    requires Sound(start) && DraftGood(start, sources, d)
    requires forall spec :: spec in specs ==> spec.id !in sources && forall id :: id in spec.merge ==> id in sources
    requires MergeSpecs(d, specs).Ok?
    ensures DraftGood(start, sources, MergeSpecs(d, specs).value)
    decreases |specs|
  {
    if specs != [] {
      var ready := d.(projects := OpenTarget(d.projects, specs[0]));
      OpenKeepsGood(start, sources, d, specs[0]);
      SourcesKeepGood(start, sources, ready, specs[0].id, specs[0].merge);
      SpecsKeepGood(start, sources, MergeSources(ready, specs[0].id, specs[0].merge).value, specs[1..]);
    }
  }

  function StartDraft(r: Registry): Draft
  {
    Draft(r.projects, r.redirects, map[], [])
  }

  /** After all the merges of a plan, every old address leads to what it led to. */
  lemma MergesKeepEverything(start: Registry, specs: seq<Spec>)
    requires Sound(start) && SourcesAreNotTargets(specs) && MergeSpecs(StartDraft(start), specs).Ok?
    ensures DraftGood(start, Sources(specs), MergeSpecs(StartDraft(start), specs).value)
  {
    var d := StartDraft(start);
    forall b | IsVersion(start.projects, b) ensures Follow(d.mapping, b) == b {
    }
    SpecsKeepGood(start, Sources(specs), d, specs);
  }
}

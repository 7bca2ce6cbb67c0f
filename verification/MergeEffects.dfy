/** The numbers, links and names that merging projects gives, and what keeps a merge from being made. */
module MergeEffects {
  import opened Basics
  import opened Sorting
  import opened Registry
  import opened AddressMaps
  import opened Merge

  /** A merge gives the source's artifacts the target's next numbers, in the order they had. */
  lemma MergedInOrder(ps: seq<Project>, t: Project, s: Project, a: Address, b: Address)
    requires Mergeable(ps, t, s) && a.ArtifactAt? && b.ArtifactAt? && a.p == b.p == s.id
    requires Live(ps, a) && Live(ps, b)
    ensures var moves := MergeMoves(ps, s, t.id, Base(t));
            var x, y := Follow(moves, a), Follow(moves, b);
            && x.ArtifactAt? && y.ArtifactAt? && x.p == y.p == t.id
            && Base(t) <= x.n < Base(t) + |s.artifacts|
            && (x.n < y.n <==> a.n < b.n)
  {
    hide MergeMoves, ByNumber;
    MovesFollow(ps, c => MergeTarget(s, t.id, Base(t), c), a);
    MovesFollow(ps, c => MergeTarget(s, t.id, Base(t), c), b);
    var i := PlaceOf(s, a.n);
    var j := PlaceOf(s, b.n);
    PlacesAscend(s.artifacts, i, j);
    NamesMoves(ps, s, t.id, Base(t));
  }

  lemma NamesMoves(ps: seq<Project>, s: Project, t: string, base: nat)
    ensures MergeMoves(ps, s, t, base) == Moves(ps, a => MergeTarget(s, t, base, a))
  {
  }

  lemma PlacesAscend(xs: seq<Artifact>, i: nat, j: nat)
    requires i < |xs| && j < |xs| && DistinctNumbers(xs)
    ensures i < j <==> ByNumber(xs)[i].number < ByNumber(xs)[j].number
  {
    ByNumberKeeps(xs);
    SortBySorts(NumberKey, xs);
    var ys := ByNumber(xs);
    if i < j {
      assert NumberKey(ys[i]).Le(NumberKey(ys[j]));
    } else if j < i {
      assert NumberKey(ys[j]).Le(NumberKey(ys[i]));
    }
  }

  lemma MovesFollow(ps: seq<Project>, f: Address -> Address, a: Address)
    requires Live(ps, a)
    ensures Follow(Moves(ps, f), a) == f(a)
  {
  }

  // Links.

  /** The version at `a` goes to project `t` under a name with its project's id before it. */
  predicate LinksVersion(ps: seq<Project>, t: string, a: Address, link: Link)
  {
    && a.VersionAt? && Live(ps, a)
    && link.project == t && link.source == a.p && link.sourceRevision == RevisionAt(ps, a).value
    && link.revision == a.p + "-" + RevisionAt(ps, a).value
  }

  lemma {:induction false} VersionLinkIs(t: string, s: string, vs: seq<Version>, link: Link)
    ensures link in VersionLinks(t, s, vs) <==>
            exists v :: v in vs && link == Link(t, Prefixed(s, v.revision), s, v.revision)
  {
    if vs != [] {
      VersionLinkIs(t, s, vs[1..], link);
      assert vs == [vs[0]] + vs[1..];
    }
  }

  lemma {:induction false} ArtifactLinkIs(t: string, s: string, xs: seq<Artifact>, link: Link)
    ensures link in LinksOf(t, s, xs) <==> exists x :: x in xs && link in VersionLinks(t, s, x.versions)
  {
    if xs != [] {
      ArtifactLinkIs(t, s, xs[1..], link);
      assert xs == [xs[0]] + xs[1..];
    }
  }

  lemma VersionListed(ps: seq<Project>, s: Project, x: Artifact, v: Version) returns (a: Address)
    requires WellFormed(ps) && FindProject(ps, s.id) == Some(s) && x in s.artifacts && v in x.versions
    ensures a.p == s.id && IsVersion(ps, a) && RevisionAt(ps, a) == Some(v.revision)
  {
    var i :| 0 <= i < |s.artifacts| && s.artifacts[i] == x;
    assert WellNumbered(s);
    FindArtifactAt(s.artifacts, i);
    var k :| 0 <= k < |x.versions| && x.versions[k] == v;
    a := VersionAt(s.id, x.number, k + 1);
  }

  /** A merge links the source's versions, each under its new name, and nothing else. */
  lemma LinksAreVersions(ps: seq<Project>, t: Project, s: Project, link: Link)
    requires Mergeable(ps, t, s)
    ensures link in LinksOf(t.id, s.id, ByNumber(s.artifacts)) <==>
            exists a: Address :: a.p == s.id && LinksVersion(ps, t.id, a, link)
  {
    assert WellNumbered(s);
    ByNumberKeeps(s.artifacts);
    ArtifactLinkIs(t.id, s.id, ByNumber(s.artifacts), link);
    if link in LinksOf(t.id, s.id, ByNumber(s.artifacts)) {
      var x :| x in s.artifacts && link in VersionLinks(t.id, s.id, x.versions);
      VersionLinkIs(t.id, s.id, x.versions, link);
      var v :| v in x.versions && link == Link(t.id, Prefixed(s.id, v.revision), s.id, v.revision);
      var a := VersionListed(ps, s, x, v);
      assert LinksVersion(ps, t.id, a, link);
    }
    if a: Address :| a.p == s.id && LinksVersion(ps, t.id, a, link) {
      var x := Lookup(ps, a.p, a.n).value;
      VersionLinkIs(t.id, s.id, x.versions, link);
      assert x.versions[a.k - 1] in x.versions;
    }
  }

  // Refusals.

  /** The name that the version at `a` would get in another project is taken there, by the version at `b`. */
  ghost predicate Taken(ps: seq<Project>, a: Address, b: Address)
  {
    IsVersion(ps, a) && IsVersion(ps, b) && RevisionAt(ps, b).value == a.p + "-" + RevisionAt(ps, a).value
  }

  /** A merge is refused exactly when a source with artifacts meets a target that numbers none, or a name is taken. */
  lemma MergeRefusedIff(d: Draft, tid: string, sid: string)
    requires WellFormed(d.projects)
    ensures MergeSource(d, tid, sid).Err? <==>
            && FindProject(d.projects, sid).Some? && FindProject(d.projects, tid).Some?
            && ((FindProject(d.projects, sid).value.artifacts != [] && FindProject(d.projects, tid).value.next.None?)
                || exists a: Address, b: Address :: a.p == sid && b.p == tid && Taken(d.projects, a, b))
  {
    if FindProject(d.projects, sid).Some? && FindProject(d.projects, tid).Some? {
      CollidesIff(d.projects, FindProject(d.projects, tid).value, FindProject(d.projects, sid).value);
      hide Collides, Taken;
    }
  }

  lemma CollidesIff(ps: seq<Project>, t: Project, s: Project)
    requires WellFormed(ps) && FindProject(ps, t.id) == Some(t) && FindProject(ps, s.id) == Some(s)
    ensures Collides(t, s) <==> exists a: Address, b: Address :: a.p == s.id && b.p == t.id && Taken(ps, a, b)
  {
    if Collides(t, s) {
      var x, v :| x in s.artifacts && v in x.versions && Prefixed(s.id, v.revision) in Revisions(t);
      var y, w :| y in t.artifacts && w in y.versions && w.revision == Prefixed(s.id, v.revision);
      var a := VersionListed(ps, s, x, v);
      var b := VersionListed(ps, t, y, w);
      assert Taken(ps, a, b);
    }
    if a: Address, b: Address :| a.p == s.id && b.p == t.id && Taken(ps, a, b) {
      var x, y := Lookup(ps, a.p, a.n).value, Lookup(ps, b.p, b.n).value;
      assert x.versions[a.k - 1] in x.versions && y.versions[b.k - 1] in y.versions;
      assert Prefixed(s.id, x.versions[a.k - 1].revision) in Revisions(t);
    }
  }
}

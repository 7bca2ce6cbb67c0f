/** The artifact registry: projects own numbered artifacts, artifacts own numbered versions, and redirects lead
    from retired addresses to live ones. */
module Registry {
  import opened Basics

  datatype Address =
    | ProjectAt(p: string)
    | ArtifactAt(p: string, n: nat)
    | VersionAt(p: string, n: nat, k: nat)

  /** `uid` stands for the identity of the entry itself: it never changes, whatever number the entry is given.
      `date` is the version's sort key. */
  datatype Version = Version(uid: nat, number: nat, revision: string, date: int)

  /** `sessions` is the artifact's own session followed by the ones folded into it. */
  datatype Artifact = Artifact(uid: nat, number: nat, title: string, sessions: seq<string>,
                               versions: seq<Version>, current: nat)

  datatype Project = Project(id: string, name: string, next: Option<nat>, artifacts: seq<Artifact>)

  datatype Registry = Registry(projects: seq<Project>, redirects: map<Address, Address>)

  // Looking entries up.

  function FindProject(ps: seq<Project>, id: string): (r: Option<Project>)
    ensures r.Some? ==> r.value in ps && r.value.id == id
    ensures r.None? ==> forall p :: p in ps ==> p.id != id
  {
    if ps == [] then None
    else if ps[0].id == id then Some(ps[0])
    else FindProject(ps[1..], id)
  }

  function FindArtifact(xs: seq<Artifact>, n: nat): (r: Option<Artifact>)
    ensures r.Some? ==> r.value in xs && r.value.number == n
    ensures r.None? ==> forall x :: x in xs ==> x.number != n
  {
    if xs == [] then None
    else if xs[0].number == n then Some(xs[0])
    else FindArtifact(xs[1..], n)
  }

  function Lookup(ps: seq<Project>, p: string, n: nat): Option<Artifact>
  {
    match FindProject(ps, p)
    case None => None
    case Some(project) => FindArtifact(project.artifacts, n)
  }

  /** What an address names: an entry's identity and what there is to it but its number, an artifact's versions by
      identity and without their order. */
  datatype Thing =
    | AProject
    | AnArtifact(uid: nat, holds: set<nat>, title: string, sessions: seq<string>, current: nat)
    | AVersion(uid: nat, date: int)

  function Holds(x: Artifact): set<nat>
  {
    set v | v in x.versions :: v.uid
  }

  function At(ps: seq<Project>, a: Address): Option<Thing>
  {
    match a
    case ProjectAt(p) => if FindProject(ps, p).Some? then Some(AProject) else None
    case ArtifactAt(p, n) =>
      (match Lookup(ps, p, n)
       case None => None
       case Some(x) => Some(AnArtifact(x.uid, Holds(x), x.title, x.sessions, x.current)))
    case VersionAt(p, n, k) =>
      (match Lookup(ps, p, n)
       case None => None
       case Some(x) => if 1 <= k <= |x.versions| then Some(AVersion(x.versions[k - 1].uid, x.versions[k - 1].date)) else None)
  }

  predicate Live(ps: seq<Project>, a: Address)
  {
    At(ps, a).Some?
  }

  ghost predicate IsVersion(ps: seq<Project>, a: Address)
  {
    a.VersionAt? && Live(ps, a)
  }

  function RevisionAt(ps: seq<Project>, a: Address): Option<string>
  {
    if a.VersionAt? && Live(ps, a) then Some(Lookup(ps, a.p, a.n).value.versions[a.k - 1].revision) else None
  }

  /** True when a redirect kept at `a` would sit on a live address. */
  predicate Shadows(ps: seq<Project>, a: Address)
  {
    match a
    case ProjectAt(p) => FindProject(ps, p).Some?
    case ArtifactAt(p, n) => Lookup(ps, p, n).Some?
    case VersionAt(p, n, k) => Lookup(ps, p, n).Some? && k <= |Lookup(ps, p, n).value.versions|
  }

  /** Every live address shadows; the only other address that does is a live artifact's version 0. */
  lemma ShadowsIffLive(ps: seq<Project>, a: Address)
    ensures Shadows(ps, a) <==> Live(ps, a) || (a.VersionAt? && a.k == 0 && Live(ps, ArtifactAt(a.p, a.n)))
  {
  }

  /** The artifact an artifact or version address belongs to. */
  function Owner(a: Address): Address
  {
    if a.VersionAt? then ArtifactAt(a.p, a.n) else a
  }

  function LiveAddresses(ps: seq<Project>): (s: set<Address>)
    ensures forall a :: a in s <==> Live(ps, a)
  {
    var candidates :=
      (set p | p in ps :: ProjectAt(p.id))
      + (set p, x | p in ps && x in p.artifacts :: ArtifactAt(p.id, x.number))
      + (set p, x, k: nat | p in ps && x in p.artifacts && 1 <= k <= |x.versions| :: VersionAt(p.id, x.number, k));
    assert forall a :: Live(ps, a) ==> a in candidates;
    set a | a in candidates && Live(ps, a)
  }

  /** The revision names a project's versions use. */
  function Revisions(p: Project): set<string>
  {
    set x, v | x in p.artifacts && v in x.versions :: v.revision
  }

  // The registry's shape.

  ghost predicate DistinctNumbers(xs: seq<Artifact>)
  {
    forall i, j :: 0 <= i < j < |xs| ==> xs[i].number != xs[j].number
  }

  ghost predicate DistinctIds(ps: seq<Project>)
  {
    forall i, j :: 0 <= i < j < |ps| ==> ps[i].id != ps[j].id
  }

  /** Versions are numbered 1..M and one of them is current. */
  ghost predicate WellVersioned(x: Artifact)
  {
    && x.versions != []
    && 1 <= x.current <= |x.versions|
    && forall i :: 0 <= i < |x.versions| ==> x.versions[i].number == i + 1
  }

  /** Artifact numbers do not repeat and the next number to assign is free. Numbers may have gaps. */
  ghost predicate WellNumbered(p: Project)
  {
    && DistinctNumbers(p.artifacts)
    && (forall x :: x in p.artifacts ==> WellVersioned(x))
    && (p.next.Some? ==> forall x :: x in p.artifacts ==> x.number < p.next.value)
  }

  ghost predicate WellFormed(ps: seq<Project>)
  {
    && DistinctIds(ps)
    && forall p :: p in ps ==> WellNumbered(p)
  }

  /** Artifact numbers are exactly 1..N and the next one to assign is N + 1. */
  ghost predicate Dense(p: Project)
  {
    && p.next == Some(|p.artifacts| + 1)
    && forall x :: x in p.artifacts ==> 1 <= x.number <= |p.artifacts|
  }

  /** Every entry ends at a live address, and only a project's at a project. */
  ghost predicate EndsLive(m: map<Address, Address>, ps: seq<Project>)
  {
    forall a :: a in m ==> Live(ps, m[a]) && (m[a].ProjectAt? ==> a.ProjectAt?)
  }

  ghost predicate TargetsLive(r: Registry)
  {
    EndsLive(r.redirects, r.projects)
  }

  ghost predicate Unshadowed(r: Registry)
  {
    forall a :: a in r.redirects ==> !Shadows(r.projects, a)
  }

  ghost predicate Sound(r: Registry)
  {
    WellFormed(r.projects) && TargetsLive(r) && Unshadowed(r)
  }

  /** No version is at two addresses. */
  ghost predicate VersionsOnce(ps: seq<Project>)
  {
    forall a, b :: IsVersion(ps, a) && IsVersion(ps, b) && At(ps, a).value.uid == At(ps, b).value.uid ==> a == b
  }

  lemma {:induction false} FindArtifactAt(xs: seq<Artifact>, i: nat)
    requires DistinctNumbers(xs) && i < |xs|
    ensures FindArtifact(xs, xs[i].number) == Some(xs[i])
  {
    if i > 0 {
      FindArtifactAt(xs[1..], i - 1);
    }
  }

  lemma {:induction false} FindArtifactConcat(xs: seq<Artifact>, ys: seq<Artifact>, n: nat)
    ensures FindArtifact(xs + ys, n) == if FindArtifact(xs, n).Some? then FindArtifact(xs, n) else FindArtifact(ys, n)
  {
    if xs == [] {
      assert xs + ys == ys;
    } else {
      assert (xs + ys)[1..] == xs[1..] + ys;
      FindArtifactConcat(xs[1..], ys, n);
    }
  }

  /** Looking a number up in a filtered list finds what the filter makes of the entry with that number. */
  lemma {:induction false} FindArtifactFilter(f: Artifact -> Option<Artifact>, xs: seq<Artifact>, n: nat)
    requires DistinctNumbers(xs)
    requires forall x :: x in xs && f(x).Some? ==> f(x).value.number == x.number
    ensures FindArtifact(FilterMap(f, xs), n) ==
            (match FindArtifact(xs, n) case None => None case Some(x) => f(x))
  {
    if xs != [] {
      FindArtifactFilter(f, xs[1..], n);
      if xs[0].number == n {
        assert FindArtifact(xs[1..], n).None? by {
          forall x | x in xs[1..] ensures x.number != n {
            var j :| 0 <= j < |xs[1..]| && xs[1..][j] == x;
            assert xs[j + 1] == x;
          }
        }
      }
    }
  }

  lemma {:induction false} FilterDistinct(f: Artifact -> Option<Artifact>, xs: seq<Artifact>)
    requires DistinctNumbers(xs)
    requires forall x :: x in xs && f(x).Some? ==> f(x).value.number == x.number
    ensures DistinctNumbers(FilterMap(f, xs))
  {
    if xs != [] {
      FilterDistinct(f, xs[1..]);
      var rest := FilterMap(f, xs[1..]);
      FilterMembers(f, xs[1..]);
      if f(xs[0]).Some? {
        forall j | 0 <= j < |rest| ensures rest[j].number != xs[0].number {
          assert rest[j] in rest;
          var x :| x in xs[1..] && f(x) == Some(rest[j]);
          var k :| 0 <= k < |xs[1..]| && xs[1..][k] == x;
          assert xs[k + 1] == x;
        }
      }
    }
  }

  lemma {:induction false} FilterDistinctIds(f: Project -> Option<Project>, ps: seq<Project>)
    requires DistinctIds(ps)
    requires forall p :: p in ps && f(p).Some? ==> f(p).value.id == p.id
    ensures DistinctIds(FilterMap(f, ps))
  {
    if ps != [] {
      FilterDistinctIds(f, ps[1..]);
      var rest := FilterMap(f, ps[1..]);
      FilterMembers(f, ps[1..]);
      forall j | 0 <= j < |rest| ensures rest[j].id != ps[0].id {
        assert rest[j] in rest;
        var p :| p in ps[1..] && f(p) == Some(rest[j]);
        var k :| 0 <= k < |ps[1..]| && ps[1..][k] == p;
        assert ps[k + 1] == p;
      }
    }
  }

  /** Changing projects one by one, ids kept, changes what a lookup finds in the same way. */
  lemma {:induction false} FindProjectMap(f: Project -> Option<Project>, ps: seq<Project>, id: string)
    requires DistinctIds(ps)
    requires forall p :: p in ps && f(p).Some? ==> f(p).value.id == p.id
    ensures FindProject(FilterMap(f, ps), id) ==
            (match FindProject(ps, id) case None => None case Some(p) => f(p))
  {
    if ps != [] {
      FindProjectMap(f, ps[1..], id);
      if ps[0].id == id {
        assert FindProject(ps[1..], id).None? by {
          forall p | p in ps[1..] ensures p.id != id {
            var k :| 0 <= k < |ps[1..]| && ps[1..][k] == p;
            assert ps[k + 1] == p;
          }
        }
      }
    }
  }

  function ReplaceProject(ps: seq<Project>, q: Project): seq<Project>
  {
    FilterMap((p: Project) => Some(if p.id == q.id then q else p), ps)
  }

  lemma ReplaceProjectShape(ps: seq<Project>, p: Project, q: Project)
    requires DistinctIds(ps) && p in ps && p.id == q.id
    ensures DistinctIds(ReplaceProject(ps, q))
    ensures forall z :: z in ReplaceProject(ps, q) <==> z == q || (z in ps && z.id != q.id)
    ensures forall id :: FindProject(ReplaceProject(ps, q), id) == if id == q.id then Some(q) else FindProject(ps, id)
  {
    var f := (z: Project) => Some(if z.id == q.id then q else z);
    forall id ensures FindProject(ReplaceProject(ps, q), id) == if id == q.id then Some(q) else FindProject(ps, id) {
      FindProjectMap(f, ps, id);
    }
    FilterDistinctIds(f, ps);
    FilterMembers(f, ps);
    assert f(p) == Some(q);
    forall z | z in ps && z.id != q.id ensures z in ReplaceProject(ps, q) {
      assert f(z) == Some(z);
    }
  }

  /** The place of the first artifact with number `n`. */
  function PositionOf(xs: seq<Artifact>, n: nat): (i: nat)
    ensures i <= |xs|
    ensures i < |xs| ==> xs[i].number == n
    ensures i == |xs| ==> forall x :: x in xs ==> x.number != n
  {
    if xs == [] then 0
    else if xs[0].number == n then 0
    else 1 + PositionOf(xs[1..], n)
  }

  lemma PositionOfMember(xs: seq<Artifact>, i: nat)
    requires DistinctNumbers(xs) && i < |xs|
    ensures PositionOf(xs, xs[i].number) == i
  {
    assert xs[i] in xs;
  }

  /** Permuting artifacts keeps their numbers distinct. */
  lemma PermutationDistinctNumbers(xs: seq<Artifact>, ys: seq<Artifact>)
    requires multiset(xs) == multiset(ys) && DistinctNumbers(xs)
    ensures DistinctNumbers(ys)
    ensures forall x :: x in ys <==> x in xs
  {
    PermutationMembers(xs, ys);
    PermutationDistinct(xs, ys);
    forall i, j | 0 <= i < j < |ys| ensures ys[i].number != ys[j].number {
      assert ys[i] in xs && ys[j] in xs && ys[i] != ys[j];
    }
  }

  /** Found in one order, an artifact is at its place in any other. */
  lemma PermutedFinds(xs: seq<Artifact>, ys: seq<Artifact>, n: nat)
    requires multiset(xs) == multiset(ys) && DistinctNumbers(xs) && FindArtifact(xs, n).Some?
    ensures PositionOf(ys, n) < |ys| && ys[PositionOf(ys, n)] == FindArtifact(xs, n).value
  {
    PermutationDistinctNumbers(xs, ys);
    var x := FindArtifact(xs, n).value;
    assert x in ys;
    var j :| 0 <= j < |ys| && ys[j] == x;
    PositionOfMember(ys, j);
  }

  lemma PermutedAt(xs: seq<Artifact>, ys: seq<Artifact>, i: nat)
    requires multiset(xs) == multiset(ys) && DistinctNumbers(xs) && i < |ys|
    ensures FindArtifact(xs, ys[i].number) == Some(ys[i]) && PositionOf(ys, ys[i].number) == i
  {
    PermutationDistinctNumbers(xs, ys);
    assert ys[i] in xs;
    var j :| 0 <= j < |xs| && xs[j] == ys[i];
    FindArtifactAt(xs, j);
    PositionOfMember(ys, i);
  }
}

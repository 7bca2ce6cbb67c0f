/** Renumbering: artifact numbers become 1..N per project, in order of each artifact's first version. */
module Densify {
  import opened Basics
  import opened Sorting
  import opened Registry
  import opened AddressMaps

  function MinDate(vs: seq<Version>): (d: int)
    requires vs != []
    ensures exists v :: v in vs && v.date == d
    ensures forall v :: v in vs ==> d <= v.date
  {
    if |vs| == 1 then vs[0].date
    else
      assert vs == [vs[0]] + vs[1..];
      var rest := MinDate(vs[1..]);
      if vs[0].date <= rest then vs[0].date else rest
  }

  function DenseKey(x: Artifact): Key
  {
    Key(if x.versions == [] then 0 else MinDate(x.versions), x.number, 0)
  }

  function InDateOrder(xs: seq<Artifact>): (ys: seq<Artifact>)
    ensures |ys| == |xs|
  {
    SortBy(DenseKey, xs)
  }

  function Renumbered(xs: seq<Artifact>): (ys: seq<Artifact>)
    ensures |ys| == |xs|
    ensures forall i :: 0 <= i < |xs| ==> ys[i] == xs[i].(number := i + 1)
  {
    seq(|xs|, i requires 0 <= i < |xs| => xs[i].(number := i + 1))
  }

  function DenseProject(p: Project): Project
  {
    p.(artifacts := Renumbered(InDateOrder(p.artifacts)), next := Some(|p.artifacts| + 1))
  }

  function DenseProjects(ps: seq<Project>): seq<Project>
  {
    FilterMap(p => Some(DenseProject(p)), ps)
  }

  /** The number that artifact `n` of project `p` gets. */
  function DenseNumber(ps: seq<Project>, p: string, n: nat): nat
  {
    match FindProject(ps, p)
    case None => n
    case Some(project) => PositionOf(InDateOrder(project.artifacts), n) + 1
  }

  function DenseTarget(ps: seq<Project>, a: Address): Address
  {
    match a
    case ProjectAt(p) => a
    case ArtifactAt(p, n) => ArtifactAt(p, DenseNumber(ps, p, n))
    case VersionAt(p, n, k) => VersionAt(p, DenseNumber(ps, p, n), k)
  }

  function DenseMoves(ps: seq<Project>): map<Address, Address>
  {
    Moves(ps, a => DenseTarget(ps, a))
  }

  function WithoutShadowing(ps: seq<Project>, redirects: map<Address, Address>): map<Address, Address>
  {
    map a | a in redirects && !Shadows(ps, a) :: redirects[a]
  }

  function Densified(r: Registry): Registry
  {
    var ps := DenseProjects(r.projects);
    Registry(ps, WithoutShadowing(ps, Carried(r.redirects, DenseMoves(r.projects))))
  }

  // The order and numbers of one project.

  lemma InDateOrderKeeps(xs: seq<Artifact>)
    requires DistinctNumbers(xs)
    ensures DistinctNumbers(InDateOrder(xs))
    ensures forall x :: x in InDateOrder(xs) <==> x in xs
    ensures Sorted(DenseKey, InDateOrder(xs))
  {
    var ys := InDateOrder(xs);
    SortBySorts(DenseKey, xs);
    SortByPermutes(DenseKey, xs);
    PermutationDistinctNumbers(xs, ys);
  }

  /** A dense project holds the same artifacts under the numbers 1..N. */
  lemma DenseProjectShape(p: Project)
    requires WellNumbered(p)
    ensures WellNumbered(DenseProject(p)) && Dense(DenseProject(p))
  {
    InDateOrderKeeps(p.artifacts);
    var xs := InDateOrder(p.artifacts);
    forall y | y in DenseProject(p).artifacts ensures WellVersioned(y) && 1 <= y.number <= |xs| {
      var i :| 0 <= i < |xs| && DenseProject(p).artifacts[i] == y;
      assert xs[i] in xs;
    }
  }

  lemma InDateOrderAt(p: Project, i: nat)
    requires WellNumbered(p) && i < |p.artifacts|
    ensures var xs := InDateOrder(p.artifacts);
            FindArtifact(p.artifacts, xs[i].number) == Some(xs[i]) && PositionOf(xs, xs[i].number) == i
  {
    hide FindArtifact, PositionOf, WellVersioned;
    SortByPermutes(DenseKey, p.artifacts);
    PermutedAt(p.artifacts, InDateOrder(p.artifacts), i);
  }

  /** The artifact in place `i` of the date order, before and after it is numbered `i + 1`. */
  lemma DenseMember(p: Project, i: nat)
    requires WellNumbered(p) && i < |p.artifacts|
    ensures var xs := InDateOrder(p.artifacts);
            && FindArtifact(p.artifacts, xs[i].number) == Some(xs[i])
            && PositionOf(xs, xs[i].number) == i
            && FindArtifact(DenseProject(p).artifacts, i + 1) == Some(xs[i].(number := i + 1))
  {
    hide InDateOrder, FindArtifact, PositionOf, WellVersioned, Renumbered;
    InDateOrderAt(p, i);
    DenseProjectShape(p);
    FindArtifactAt(DenseProject(p).artifacts, i);
  }

  lemma FindDense(p: Project, n: nat)
    requires WellNumbered(p) && FindArtifact(p.artifacts, n).Some?
    ensures PositionOf(InDateOrder(p.artifacts), n) < |p.artifacts|
    ensures InDateOrder(p.artifacts)[PositionOf(InDateOrder(p.artifacts), n)] == FindArtifact(p.artifacts, n).value
  {
    SortByPermutes(DenseKey, p.artifacts);
    PermutedFinds(p.artifacts, InDateOrder(p.artifacts), n);
  }

  lemma DenseLookup(ps: seq<Project>, p: string, n: nat)
    requires WellFormed(ps)
    ensures Lookup(ps, p, n).Some? ==>
              var m := DenseNumber(ps, p, n);
              Lookup(DenseProjects(ps), p, m) == Some(Lookup(ps, p, n).value.(number := m))
    ensures FindProject(DenseProjects(ps), p).Some? == FindProject(ps, p).Some?
  {
    FindProjectMap(q => Some(DenseProject(q)), ps, p);
    if Lookup(ps, p, n).Some? {
      var project := FindProject(ps, p).value;
      FindDense(project, n);
      DenseMember(project, PositionOf(InDateOrder(project.artifacts), n));
    }
  }

  lemma DenseWellFormed(ps: seq<Project>)
    requires WellFormed(ps)
    ensures WellFormed(DenseProjects(ps))
    ensures forall q :: q in DenseProjects(ps) ==> Dense(q)
  {
    FilterDistinctIds(q => Some(DenseProject(q)), ps);
    FilterMembers(q => Some(DenseProject(q)), ps);
    forall q | q in DenseProjects(ps) ensures WellNumbered(q) && Dense(q) {
      var p :| p in ps && Some(DenseProject(p)) == Some(q);
      DenseProjectShape(p);
    }
  }

  /** Each address moves to the address of the very same artifact or version. */
  lemma DenseCarries(ps: seq<Project>)
    requires WellFormed(ps)
    ensures Carries(ps, DenseMoves(ps), DenseProjects(ps), true)
  {
    forall a | Live(ps, a)
      ensures At(DenseProjects(ps), DenseTarget(ps, a)) == At(ps, a)
    {
      DenseLookup(ps, a.p, if a.ProjectAt? then 0 else a.n);
    }
  }

  lemma DensePredecessor(ps: seq<Project>, b: Address) returns (a: Address)
    requires WellFormed(ps) && IsVersion(DenseProjects(ps), b)
    ensures IsVersion(ps, a) && DenseTarget(ps, a) == b
  {
    FindProjectMap(q => Some(DenseProject(q)), ps, b.p);
    var p := FindProject(ps, b.p).value;
    var y := FindArtifact(DenseProject(p).artifacts, b.n).value;
    var i :| 0 <= i < |p.artifacts| && DenseProject(p).artifacts[i] == y;
    DenseMember(p, i);
    a := VersionAt(b.p, InDateOrder(p.artifacts)[i].number, b.k);
  }

  lemma DenseKeepsRevision(ps: seq<Project>, a: Address)
    requires WellFormed(ps) && IsVersion(ps, a)
    ensures RevisionAt(DenseProjects(ps), Follow(DenseMoves(ps), a)) == RevisionAt(ps, a)
  {
    DenseLookup(ps, a.p, a.n);
  }

  /** Every version address afterwards is where one before went. */
  lemma DenseCovers(ps: seq<Project>)
    requires WellFormed(ps)
    ensures Covers(ps, DenseMoves(ps), DenseProjects(ps))
  {
    forall b | IsVersion(DenseProjects(ps), b)
      ensures exists a :: IsVersion(ps, a) && Follow(DenseMoves(ps), a) == b
    {
      var a := DensePredecessor(ps, b);
    }
  }

  /** Renumbering a well-formed registry whose redirects lead to live addresses leaves it sound and dense. */
  lemma DensifiedSound(r: Registry)
    requires WellFormed(r.projects) && TargetsLive(r)
    ensures Sound(Densified(r))
    ensures forall p :: p in Densified(r).projects ==> Dense(p)
  {
    var ps, moves := DenseProjects(r.projects), DenseMoves(r.projects);
    DenseWellFormed(r.projects);
    DenseCarries(r.projects);
    CarriedEndsLive(r.redirects, moves, r.projects, ps, true);
  }

  /** An address that was live, or retired, before the renumbering and is not taken by a live entry after it
      redirects to the same artifact or version as before. */
  lemma DensifyKeepsAddresses(r: Registry, a: Address)
    requires Sound(r) && !Shadows(DenseProjects(r.projects), a)
    requires Live(r.projects, a) || a in r.redirects
    ensures a in Densified(r).redirects
    ensures At(DenseProjects(r.projects), Densified(r).redirects[a]) ==
            At(r.projects, if a in r.redirects then r.redirects[a] else a)
  {
    DenseCarries(r.projects);
    if a in r.redirects {
      assert !Live(r.projects, a) by {
        ShadowsIffLive(r.projects, a);
      }
    } else {
      assert Live(DenseProjects(r.projects), Follow(DenseMoves(r.projects), a));
      ShadowsIffLive(DenseProjects(r.projects), a);
    }
  }

  /** Artifacts end up ordered by first date, ties by the number they had. */
  lemma DenseOrder(p: Project, m: nat, n: nat)
    requires WellNumbered(p)
    requires FindArtifact(p.artifacts, m).Some? && FindArtifact(p.artifacts, n).Some?
    ensures var xs := InDateOrder(p.artifacts);
            PositionOf(xs, m) < PositionOf(xs, n) <==>
            DenseKey(FindArtifact(p.artifacts, m).value).Lt(DenseKey(FindArtifact(p.artifacts, n).value))
  {
    var xs := InDateOrder(p.artifacts);
    InDateOrderKeeps(p.artifacts);
    FindDense(p, m);
    FindDense(p, n);
    var i, j := PositionOf(xs, m), PositionOf(xs, n);
    if i < j {
      assert DenseKey(xs[i]).Le(DenseKey(xs[j]));
    } else if j < i {
      assert DenseKey(xs[j]).Le(DenseKey(xs[i]));
    }
  }

  /** Some version of `x` is dated before every version of `y`. */
  ghost predicate StartsBefore(x: Artifact, y: Artifact)
  {
    exists v :: v in x.versions && forall w :: w in y.versions ==> v.date < w.date
  }

  lemma KeysAreFirstDates(x: Artifact, y: Artifact)
    requires x.versions != [] && y.versions != []
    ensures DenseKey(x).Lt(DenseKey(y)) <==> StartsBefore(x, y) || (!StartsBefore(y, x) && x.number < y.number)
  {
    hide StartsBefore, MinDate;
    FirstDateStarts(x, y);
    FirstDateStarts(y, x);
  }

  lemma FirstDateStarts(x: Artifact, y: Artifact)
    requires x.versions != [] && y.versions != []
    ensures StartsBefore(x, y) <==> MinDate(x.versions) < MinDate(y.versions)
  {
    var c, d := MinDate(x.versions), MinDate(y.versions);
    var v :| v in x.versions && v.date == c;
    var w :| w in y.versions && w.date == d;
  }

  /** Of two artifacts of a project the one with a version before all of the other's gets the smaller number; if
      neither has one, their earliest dates are equal, and the one with the smaller number keeps it smaller. */
  lemma NumberedByFirstDate(r: Registry, p: string, m: nat, n: nat)
    requires WellFormed(r.projects) && Lookup(r.projects, p, m).Some? && Lookup(r.projects, p, n).Some?
    ensures var x, y := Lookup(r.projects, p, m).value, Lookup(r.projects, p, n).value;
            var a := Follow(DenseMoves(r.projects), ArtifactAt(p, m));
            var b := Follow(DenseMoves(r.projects), ArtifactAt(p, n));
            && a.ArtifactAt? && a.p == p && Lookup(Densified(r).projects, p, a.n) == Some(x.(number := a.n))
            && b.ArtifactAt? && b.p == p && Lookup(Densified(r).projects, p, b.n) == Some(y.(number := b.n))
            && (a.n < b.n <==> StartsBefore(x, y) || (!StartsBefore(y, x) && m < n))
  {
    hide WellNumbered, StartsBefore, InDateOrder;
    DenseLookup(r.projects, p, m);
    DenseLookup(r.projects, p, n);
    var project := FindProject(r.projects, p).value;
    assert project in r.projects && WellNumbered(project);
    DenseOrder(project, m, n);
    HasVersions(project, m);
    HasVersions(project, n);
    KeysAreFirstDates(Lookup(r.projects, p, m).value, Lookup(r.projects, p, n).value);
  }

  lemma HasVersions(p: Project, n: nat)
    requires WellNumbered(p) && FindArtifact(p.artifacts, n).Some?
    ensures FindArtifact(p.artifacts, n).value.versions != []
  {
    assert WellVersioned(FindArtifact(p.artifacts, n).value);
  }

  // Renumbering twice.

  lemma DenseProjectFixed(p: Project)
    requires WellNumbered(p)
    ensures DenseProject(DenseProject(p)) == DenseProject(p)
    ensures InDateOrder(DenseProject(p).artifacts) == DenseProject(p).artifacts
  {
    var xs, ys := InDateOrder(p.artifacts), DenseProject(p).artifacts;
    InDateOrderKeeps(p.artifacts);
    forall i, j | 0 <= i < j < |ys| ensures DenseKey(ys[i]).Le(DenseKey(ys[j])) {
      assert DenseKey(xs[i]).Le(DenseKey(xs[j]));
    }
    SortBySorted(DenseKey, ys);
    assert Renumbered(ys) == ys;
  }

  lemma {:induction false} DenseProjectsFixed(ps: seq<Project>)
    requires forall p :: p in ps ==> WellNumbered(p)
    ensures DenseProjects(DenseProjects(ps)) == DenseProjects(ps)
  {
    if ps != [] {
      DenseProjectFixed(ps[0]);
      DenseProjectsFixed(ps[1..]);
      assert DenseProjects(ps) == [DenseProject(ps[0])] + DenseProjects(ps[1..]);
      assert DenseProjects(ps)[1..] == DenseProjects(ps[1..]);
    }
  }

  lemma DenseNumberFixed(p: Project, n: nat)
    requires WellNumbered(p) && FindArtifact(DenseProject(p).artifacts, n).Some?
    ensures PositionOf(InDateOrder(DenseProject(p).artifacts), n) + 1 == n
  {
    DenseProjectFixed(p);
    DenseProjectShape(p);
    var ys := DenseProject(p).artifacts;
    var y := FindArtifact(ys, n).value;
    var i :| 0 <= i < |ys| && ys[i] == y;
    PositionOfMember(ys, i);
  }

  lemma DenseTargetFixed(ps: seq<Project>, a: Address)
    requires WellFormed(ps) && Live(DenseProjects(ps), a)
    ensures DenseTarget(DenseProjects(ps), a) == a
  {
    if !a.ProjectAt? {
      FindProjectMap(q => Some(DenseProject(q)), ps, a.p);
      DenseNumberFixed(FindProject(ps, a.p).value, a.n);
    }
  }

  lemma DenseMovesFixed(ps: seq<Project>)
    requires WellFormed(ps)
    ensures DenseMoves(DenseProjects(ps)) == map[]
  {
    var m := DenseMoves(DenseProjects(ps));
    forall a | a in m ensures false {
      DenseTargetFixed(ps, a);
    }
    assert m.Keys == {};
  }

  lemma NothingDropped(r: Registry)
    requires Unshadowed(r)
    ensures WithoutShadowing(r.projects, Carried(r.redirects, map[])) == r.redirects
  {
  }

  /** A second renumbering moves nothing and returns the same registry. */
  lemma DensifyIdempotent(r: Registry)
    requires WellFormed(r.projects)
    ensures DenseMoves(Densified(r).projects) == map[]
    ensures Densified(Densified(r)) == Densified(r)
  {
    DenseMovesFixed(r.projects);
    DenseProjectsFixed(r.projects);
    NothingDropped(Densified(r));
  }
}

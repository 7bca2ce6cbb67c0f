/** The registry as the document that promotions and renumbering rewrite in place. The class keeps the document's own
    fields, and each of its methods is proved to leave in them what the function of the same step returns; the lemmas
    before the class say what one pass of each loop adds. */
module RegistryDocuments {
  import opened Basics
  import opened Registry
  import AddressMaps
  import opened Densify
  import opened Promotion

  // Writing one entry back leaves the rest of the list as it was.

  lemma LastReplacementWins(ps: seq<Project>, p: Project, q: Project)
    requires p.id == q.id
    ensures ReplaceProject(ReplaceProject(ps, p), q) == ReplaceProject(ps, q)
  {
    FilterTwice((z: Project) => Some(if z.id == p.id then p else z), (z: Project) => Some(if z.id == q.id then q else z),
                (z: Project) => Some(if z.id == q.id then q else z), ps);
  }

  // The entry a promotion adds.

  /** The project as it stands once an empty artifact with the next number has been added to it. */
  function Opened(p: Project, q: Request): Project
    requires p.next.Some?
  {
    p.(next := Some(p.next.value + 1), artifacts := p.artifacts + [BlankArtifact(q, p.next.value)])
  }

  /** Completing the empty artifact gives the grown project. */
  lemma ExtendedKeepsNumber(p: Project, x: Artifact, q: Request, taken: set<string>)
    ensures Extended(p, x, q, taken).number == x.number
  {
  }

  lemma OpenedGrows(p: Project, q: Request, taken: set<string>)
    requires WellNumbered(p) && p.next.Some?
    ensures var x := BlankArtifact(q, p.next.value);
            && Revisions(Opened(p, q)) == Revisions(p)
            && Opened(p, q).(artifacts := ReplaceArtifact(Opened(p, q).artifacts, Extended(p, x, q, taken))) == Grown(p, q, taken)
  {
    hide Extended, FreshRevision, Revisions, WithVersion;
    var x := BlankArtifact(q, p.next.value);
    var y := Extended(p, x, q, taken);
    ExtendedKeepsNumber(p, x, q, taken);
    BlankAddsNoRevision(p, q);
    var f := (z: Artifact) => Some(if z.number == y.number then y else z);
    FilterAppend(f, p.artifacts, [x]);
    FilterNothing(f, p.artifacts);
  }

  lemma BlankAddsNoRevision(p: Project, q: Request)
    requires p.next.Some?
    ensures Revisions(Opened(p, q)) == Revisions(p)
  {
    forall r | r in Revisions(Opened(p, q)) ensures r in Revisions(p) {
      var z, v :| z in Opened(p, q).artifacts && v in z.versions && v.revision == r;
      assert z in p.artifacts;
    }
    forall r | r in Revisions(p) ensures r in Revisions(Opened(p, q)) {
      var z, v :| z in p.artifacts && v in z.versions && v.revision == r;
      assert z in Opened(p, q).artifacts;
    }
  }

  lemma PoppedAlready(redirects: map<Address, Address>, id: string, n: nat, k: nat)
    ensures Yielded(redirects, id, n) - {VersionAt(id, n, k)} == Yielded(redirects, id, n)
  {
  }

  lemma GrownProject(r: Registry, p: Project, q: Request, taken: set<string>)
    requires WellFormed(r.projects) && FindProject(r.projects, q.project) == Some(p) && p.next.Some?
    requires FindOwner(r.projects, q.session).None?
    ensures var x := BlankArtifact(q, p.next.value);
            var counted := p.(next := Some(p.next.value + 1));
            var y := WithVersion(x, q, FreshRevision(taken + Revisions(Opened(p, q)), x.number, 1));
            var done := Opened(p, q).(artifacts := ReplaceArtifact(Opened(p, q).artifacts, y));
            Promoted(r, q, taken) == Ok(Registry(ReplaceProject(ReplaceProject(r.projects, counted), done),
                                                 Yielded(r.redirects, p.id, x.number) - {VersionAt(p.id, x.number, 1)}))
  {
    OpenedGrows(p, q, taken);
    PoppedAlready(r.redirects, p.id, p.next.value, 1);
    LastReplacementWins(r.projects, p.(next := Some(p.next.value + 1)), Grown(p, q, taken));
  }

  lemma NewProjectGrown(r: Registry, q: Request, taken: set<string>)
    requires FindProject(r.projects, q.project).None? && FindOwner(r.projects, q.session).None?
    ensures var p := NewProject(q);
            var x := BlankArtifact(q, 1);
            var counted := p.(next := Some(2));
            var y := WithVersion(x, q, FreshRevision(taken + Revisions(Opened(p, q)), 1, 1));
            var done := Opened(p, q).(artifacts := ReplaceArtifact(Opened(p, q).artifacts, y));
            Promoted(r, q, taken) == Ok(Registry(ReplaceProject(ReplaceProject([p] + r.projects, counted), done),
                                                 Yielded(r.redirects, p.id, 1) - {VersionAt(p.id, 1, 1)}))
  {
    var p := NewProject(q);
    var grown := Grown(p, q, taken);
    OpenedGrows(p, q, taken);
    PoppedAlready(r.redirects, p.id, 1, 1);
    LastReplacementWins([p] + r.projects, p.(next := Some(2)), grown);
    FilterAppend((z: Project) => Some(if z.id == grown.id then grown else z), [p], r.projects);
    FilterNothing((z: Project) => Some(if z.id == grown.id then grown else z), r.projects);
  }

  /** The first candidate name that is not taken. */
  method NameRevision(names: set<string>, n: nat, k: nat) returns (name: string)
    ensures name == FreshRevision(names, n, k)
  {
    var i := 1;
    FreeNameExists(names, n, k);
    while RevisionName(n, k, i) in names
      invariant 1 <= i <= |names| + 1
      invariant FirstFree(names, n, k, i) == FirstFree(names, n, k, 1)
      decreases |names| + 1 - i
    {
      i := i + 1;
    }
    name := RevisionName(n, k, i);
  }

  // The moves of a renumbering, project by project.

  lemma {:induction false} FoundInPrefix(ps: seq<Project>, qs: seq<Project>, id: string)
    ensures FindProject(ps + qs, id) == if FindProject(ps, id).Some? then FindProject(ps, id) else FindProject(qs, id)
  {
    if ps == [] {
      assert ps + qs == qs;
    } else {
      assert (ps + qs)[1..] == ps[1..] + qs;
      FoundInPrefix(ps[1..], qs, id);
    }
  }

  lemma LiveInPrefix(ps: seq<Project>, p: Project, a: Address)
    requires DistinctIds(ps + [p])
    ensures Live(ps, a) ==> a.p != p.id
    ensures Live([p], a) ==> a.p == p.id
    ensures a.p != p.id ==> (Live(ps + [p], a) <==> Live(ps, a)) && DenseTarget(ps + [p], a) == DenseTarget(ps, a)
    ensures a.p == p.id ==> (Live(ps + [p], a) <==> Live([p], a)) && DenseTarget(ps + [p], a) == DenseTarget([p], a)
  {
    assert (ps + [p])[|ps|] == p;
    forall q | q in ps ensures q.id != p.id {
      var i :| 0 <= i < |ps| && ps[i] == q;
      assert (ps + [p])[i] == q;
    }
    FoundInPrefix(ps, [p], a.p);
  }

  lemma DenseMovesSplit(ps: seq<Project>, p: Project)
    requires DistinctIds(ps + [p])
    ensures DenseMoves(ps + [p]) == DenseMoves(ps) + DenseMoves([p])
  {
    hide Live, DenseTarget, DistinctIds;
    forall a: Address
      ensures Live(ps, a) ==> a.p != p.id
      ensures Live([p], a) ==> a.p == p.id
      ensures a.p != p.id ==> (Live(ps + [p], a) <==> Live(ps, a)) && DenseTarget(ps + [p], a) == DenseTarget(ps, a)
      ensures a.p == p.id ==> (Live(ps + [p], a) <==> Live([p], a)) && DenseTarget(ps + [p], a) == DenseTarget([p], a)
    {
      LiveInPrefix(ps, p, a);
    }
  }

  lemma NoProjects()
    ensures DenseProjects([]) == []
  {
  }

  /** Numbering the project in place `i` extends the prefix that is numbered already. */
  lemma NextProject(before: seq<Project>, i: nat)
    requires WellFormed(before) && i < |before|
    ensures var done := DenseProjects(before[..i]) + before[i..];
            && |done| == |before| && done[i] == before[i] && WellNumbered(before[i])
            && done[i := DenseProject(before[i])] == DenseProjects(before[..i + 1]) + before[i + 1..]
    ensures DenseMoves(before[..i + 1]) == DenseMoves(before[..i]) + DenseMoves([before[i]])
  {
    hide WellFormed, DenseProject, DenseMoves, WellNumbered, DenseProjects;
    DensePrefix(before, i);
    WellFormedMember(before, i);
  }

  lemma NothingMoved()
    ensures DenseMoves([]) == map[]
  {
    assert forall a :: !Live([], a);
    assert DenseMoves([]).Keys == {};
  }

  lemma WellFormedMember(ps: seq<Project>, i: nat)
    requires WellFormed(ps) && i < |ps|
    ensures WellNumbered(ps[i])
  {
  }

  lemma DensePrefix(ps: seq<Project>, i: nat)
    requires WellFormed(ps) && i < |ps|
    ensures |DenseProjects(ps[..i])| == i
    ensures DenseProjects(ps[..i + 1]) == DenseProjects(ps[..i]) + [DenseProject(ps[i])]
    ensures DenseMoves(ps[..i + 1]) == DenseMoves(ps[..i]) + DenseMoves([ps[i]])
  {
    hide DenseMoves, DenseProject;
    assert ps[..i + 1] == ps[..i] + [ps[i]];
    FilterAppend(p => Some(DenseProject(p)), ps[..i], [ps[i]]);
    FilterTotal(p => Some(DenseProject(p)), ps[..i]);
    DenseMovesSplit(ps[..i], ps[i]);
  }

  /** The moves of the first `done` artifacts, in date order, of `p`. */
  ghost predicate MovesOf(m: map<Address, Address>, p: Project, done: nat)
  {
    && (forall a :: a in m <==> (Live([p], a) && !a.ProjectAt? && PositionOf(InDateOrder(p.artifacts), a.n) < done
                                 && DenseTarget([p], a) != a))
    && forall a :: a in m ==> m[a] == DenseTarget([p], a)
  }

  lemma NoMovesYet(p: Project)
    ensures MovesOf(map[], p, 0)
  {
  }

  lemma AllMovesOf(m: map<Address, Address>, p: Project)
    requires WellNumbered(p) && MovesOf(m, p, |p.artifacts|)
    ensures m == DenseMoves([p])
  {
    forall a | Live([p], a) && !a.ProjectAt? ensures PositionOf(InDateOrder(p.artifacts), a.n) < |p.artifacts| {
      FindDense(p, a.n);
    }
    var d := DenseMoves([p]);
    forall a ensures a in m <==> a in d
             ensures a in m ==> m[a] == d[a]
    {
      assert a in d <==> Live([p], a) && DenseTarget([p], a) != a by {
        assert Follow(d, a) == if a in d then d[a] else a;
        assert Live([p], a) ==> Follow(d, a) == DenseTarget([p], a);
      }
    }
  }

  /** Artifact `n` of `from` and its first `count` versions become artifact `number` of `to`. */
  function NumberedMoves(from: string, n: nat, to: string, number: nat, count: nat): map<Address, Address>
  {
    map[ArtifactAt(from, n) := ArtifactAt(to, number)]
    + map k: nat | 1 <= k <= count :: VersionAt(from, n, k) := VersionAt(to, number, k)
  }

  /** The redirects at or under artifact `n` of `p`. */
  function Doomed(redirects: map<Address, Address>, p: string, n: nat): set<Address>
  {
    set a | a in redirects && Owner(a) == ArtifactAt(p, n)
  }

  lemma DoomedYield(redirects: map<Address, Address>, p: string, n: nat)
    ensures redirects - Doomed(redirects, p, n) == Yielded(redirects, p, n)
  {
  }

  function ArtifactMoves(from: string, x: Artifact, to: string, number: nat): map<Address, Address>
  {
    NumberedMoves(from, x.number, to, number, |x.versions|)
  }

  /** What is live in a project alone, and where renumbering takes it. */
  lemma LiveAlone(p: Project, a: Address)
    requires !a.ProjectAt?
    ensures Live([p], a) <==>
              && a.p == p.id && FindArtifact(p.artifacts, a.n).Some?
              && (a.VersionAt? ==> 1 <= a.k <= |FindArtifact(p.artifacts, a.n).value.versions|)
    ensures a.p == p.id ==> DenseTarget([p], a) == a.(n := PositionOf(InDateOrder(p.artifacts), a.n) + 1)
  {
  }

  lemma NextMoveOf(p: Project, i: nat, a: Address)
    requires WellNumbered(p) && i < |p.artifacts| && !a.ProjectAt?
    ensures var x := InDateOrder(p.artifacts)[i];
            && (a in ArtifactMoves(p.id, x, p.id, i + 1) <==> Live([p], a) && PositionOf(InDateOrder(p.artifacts), a.n) == i)
            && (a in ArtifactMoves(p.id, x, p.id, i + 1) ==> ArtifactMoves(p.id, x, p.id, i + 1)[a] == DenseTarget([p], a))
            && (a in ArtifactMoves(p.id, x, p.id, i + 1) ==> (DenseTarget([p], a) != a <==> x.number != i + 1))
  {
    hide WellNumbered, InDateOrder, Live, DenseTarget;
    DenseMember(p, i);
    LiveAlone(p, a);
    assert PositionOf(InDateOrder(p.artifacts), a.n) == i <==> a.n == InDateOrder(p.artifacts)[i].number;
  }

  lemma NoProjectMoves(from: string, x: Artifact, to: string, number: nat)
    ensures forall a :: a in ArtifactMoves(from, x, to, number) ==> !a.ProjectAt?
  {
  }

  lemma NextMovesOf(m: map<Address, Address>, p: Project, i: nat)
    requires WellNumbered(p) && i < |p.artifacts| && MovesOf(m, p, i)
    ensures var x := InDateOrder(p.artifacts)[i];
            MovesOf(if x.number == i + 1 then m else m + ArtifactMoves(p.id, x, p.id, i + 1), p, i + 1)
  {
    hide WellNumbered, InDateOrder, Live, DenseTarget, PositionOf, ArtifactMoves;
    var xs := InDateOrder(p.artifacts);
    var more := ArtifactMoves(p.id, xs[i], p.id, i + 1);
    forall a: Address | !a.ProjectAt?
      ensures a in more <==> Live([p], a) && PositionOf(xs, a.n) == i
      ensures a in more ==> more[a] == DenseTarget([p], a) && (DenseTarget([p], a) != a <==> xs[i].number != i + 1)
    {
      NextMoveOf(p, i, a);
    }
    NoProjectMoves(p.id, xs[i], p.id, i + 1);
  }

  class RegistryDocument {
    var projects: seq<Project>
    var redirects: map<Address, Address>

    constructor (r: Registry)
      ensures View() == r
    {
      projects, redirects := r.projects, r.redirects;
    }

    function View(): Registry
      reads this
    {
      Registry(projects, redirects)
    }

    /** Take the project's next artifact number; redirects left at or under that address yield to it. */
    method Allocate(project: Project) returns (r: Option<Project>)
      modifies this
      ensures r.None? <==> project.next.None?
      ensures r.None? ==> View() == old(View())
      ensures r.Some? ==>
                && r.value == project.(next := Some(project.next.value + 1))
                && projects == ReplaceProject(old(projects), r.value)
                && redirects == Yielded(old(redirects), project.id, project.next.value)
    {
      hide Doomed, ReplaceProject, Yielded;
      if project.next.None? {
        return None;
      }
      var number := project.next.value;
      var counted := project.(next := Some(number + 1));
      projects := ReplaceProject(projects, counted);
      var doomed := Doomed(redirects, project.id, number);
      ghost var all := doomed;
      assert redirects - {} == redirects;
      while doomed != {}
        invariant doomed <= all
        invariant projects == ReplaceProject(old(projects), counted)
        invariant redirects == old(redirects) - (all - doomed)
        decreases |doomed|
      {
        var a :| a in doomed;
        redirects := redirects - {a};
        assert all - (doomed - {a}) == (all - doomed) + {a};
        doomed := doomed - {a};
      }
      assert all - {} == all;
      DoomedYield(old(redirects), project.id, number);
      r := Some(counted);
    }

    /** A copy of the registry with one more version. */
    method AddVersion(q: Request, taken: set<string>) returns (updated: RegistryDocument, failure: Option<PromotionError>)
      requires WellFormed(projects)
      ensures fresh(updated)
      ensures match Promoted(View(), q, taken)
              case Ok(r) => failure == None && updated.View() == r
              case Err(e) => failure == Some(e)
    {
      hide FreshRevision, Revisions, WellFormed, ReplaceProject, ReplaceArtifact;
      updated := new RegistryDocument(View());
      failure := None;
      var project: Project, artifact: Artifact;
      var owner := FindOwner(projects, q.session);
      if owner.Some? {
        project, artifact := owner.value.project, owner.value.artifact;
        if project.id != q.project {
          failure := Some(SessionElsewhere);
          return;
        }
      } else {
        var found := FindProject(projects, q.project);
        if found.Some? {
          project := found.value;
        } else {
          project := NewProject(q);
          updated.projects := [project] + updated.projects;
        }
        var counted := updated.Allocate(project);
        if counted.None? {
          failure := Some(NoNextNumber);
          return;
        }
        artifact := BlankArtifact(q, project.next.value);
        project := counted.value.(artifacts := project.artifacts + [artifact]);
      }
      var k := |artifact.versions| + 1;
      var revision := NameRevision(taken + Revisions(project), artifact.number, k);
      var grown := WithVersion(artifact, q, revision);
      updated.projects := ReplaceProject(updated.projects, project.(artifacts := ReplaceArtifact(project.artifacts, grown)));
      updated.redirects := updated.redirects - {VersionAt(project.id, artifact.number, k)};
      if owner.None? {
        if FindProject(projects, q.project).Some? {
          var p := FindProject(projects, q.project).value;
          assert project == Opened(p, q);
          GrownProject(View(), p, q, taken);
        } else {
          assert project == Opened(NewProject(q), q);
          NewProjectGrown(View(), q, taken);
        }
      }
    }

    /** Renumber one project in place. */
    method NumberProject(p: Project) returns (numbered: Project, moves: map<Address, Address>)
      requires WellNumbered(p)
      ensures numbered == DenseProject(p) && moves == DenseMoves([p])
    {
      hide WellNumbered, InDateOrder, MovesOf, DenseMoves;
      var ordered := InDateOrder(p.artifacts);
      NoMovesYet(p);
      var artifacts: seq<Artifact> := [];
      moves := map[];
      for i := 0 to |ordered|
        invariant artifacts == Renumbered(ordered)[..i]
        invariant MovesOf(moves, p, i)
      {
        var artifact, number := ordered[i], i + 1;
        NextMovesOf(moves, p, i);
        if artifact.number != number {
          moves := moves + ArtifactMoves(p.id, artifact, p.id, number);
        }
        artifacts := artifacts + [artifact.(number := number)];
      }
      AllMovesOf(moves, p);
      numbered := p.(artifacts := artifacts, next := Some(|ordered| + 1));
    }

    /** Renumber every project in place. */
    method NumberProjects() returns (moves: map<Address, Address>)
      requires WellFormed(projects)
      modifies this`projects
      ensures projects == DenseProjects(old(projects)) && moves == DenseMoves(old(projects))
    {
      hide WellFormed, DenseProject, DenseMoves, WellNumbered, DenseProjects;
      ghost var before := projects;
      NothingMoved();
      NoProjects();
      moves := map[];
      assert before[..0] == [] && before[0..] == before;
      for i := 0 to |projects|
        invariant |projects| == |before|
        invariant projects == DenseProjects(before[..i]) + before[i..]
        invariant moves == DenseMoves(before[..i])
      {
        NextProject(before, i);
        var numbered, more := NumberProject(projects[i]);
        moves := moves + more;
        projects := projects[i := numbered];
      }
      assert before[..|before|] == before;
    }

    /** Renumber every project, and let the redirects follow. */
    method Densify() returns (moves: map<Address, Address>, dropped: map<Address, Address>)
      requires WellFormed(projects)
      modifies this
      ensures View() == Densified(old(View()))
      ensures moves == DenseMoves(old(projects))
      ensures dropped == AddressMaps.Carried(old(redirects), moves) - redirects.Keys
    {
      hide WellFormed, DenseMoves, DenseProjects, Shadows, AddressMaps.Followed;
      moves := NumberProjects();
      var combined := AddressMaps.Followed(redirects, moves) + moves;
      dropped := map a | a in combined && Shadows(projects, a) :: combined[a];
      redirects := WithoutShadowing(projects, combined);
    }
  }
}

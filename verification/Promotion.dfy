/** Promotion: a session makes one artifact, version after version. */
module Promotion {
  import opened Basics
  import opened Registry

  /** `artifactUid` and `versionUid` are the identities of the entries this promotion may create. */
  datatype Request = Request(project: string, name: string, session: string, date: int,
                             artifactUid: nat, versionUid: nat)

  datatype PromotionError = SessionElsewhere | NoNextNumber

  // Revision names.

  function RevisionName(n: nat, k: nat, i: nat): string
  {
    Decimal(n) + "-v" + Decimal(k) + if i > 1 then "-" + Decimal(i) else ""
  }

  /** The first free name among candidates `i`, `i + 1`, ..., |taken| + 1. */
  function FirstFree(taken: set<string>, n: nat, k: nat, i: nat): (r: Option<string>)
    ensures r.Some? ==> r.value !in taken
    ensures r.None? ==> forall j :: i <= j <= |taken| + 1 ==> RevisionName(n, k, j) in taken
    decreases |taken| + 2 - i
  {
    if i > |taken| + 1 then None
    else if RevisionName(n, k, i) !in taken then Some(RevisionName(n, k, i))
    else FirstFree(taken, n, k, i + 1)
  }

  lemma RevisionNamesDiffer(n: nat, k: nat, i: nat, j: nat)
    requires 1 <= i < j
    ensures RevisionName(n, k, i) != RevisionName(n, k, j)
  {
    var base := Decimal(n) + "-v" + Decimal(k);
    if RevisionName(n, k, i) == RevisionName(n, k, j) {
      assert RevisionName(n, k, j)[|base| + 1..] == Decimal(j);
      assert |RevisionName(n, k, j)| > |base|;
      assert RevisionName(n, k, i)[|base| + 1..] == Decimal(i);
      DecimalInjective(i, j);
    }
  }

  /** The search over one candidate more than there are names taken always succeeds. */
  lemma FreeNameExists(taken: set<string>, n: nat, k: nat)
    ensures FirstFree(taken, n, k, 1).Some?
  {
    if FirstFree(taken, n, k, 1).None? {
      var names := seq(|taken| + 1, i requires 0 <= i => RevisionName(n, k, i + 1));
      forall x | x in Elements(names) ensures x in taken {
        var i :| 0 <= i < |names| && names[i] == x;
      }
      Pigeonhole(names, taken);
      var i, j :| 0 <= i < j < |names| && names[i] == names[j];
      RevisionNamesDiffer(n, k, i + 1, j + 1);
    }
  }

  function FreshRevision(taken: set<string>, n: nat, k: nat): (name: string)
    ensures name !in taken
  {
    FreeNameExists(taken, n, k);
    FirstFree(taken, n, k, 1).value
  }

  /** The name chosen is `n-vk` when that is free, and otherwise the first free one of `n-vk-2`, `n-vk-3`, ... */
  lemma {:induction false} FirstFreeIs(taken: set<string>, n: nat, k: nat, i: nat) returns (j: nat)
    requires i >= 1 && FirstFree(taken, n, k, i).Some?
    ensures i <= j
    ensures FirstFree(taken, n, k, i).value ==
            if j == 1 then Decimal(n) + "-v" + Decimal(k) else Decimal(n) + "-v" + Decimal(k) + "-" + Decimal(j)
    ensures forall m :: i <= m < j ==> RevisionName(n, k, m) in taken
    decreases |taken| + 2 - i
  {
    if RevisionName(n, k, i) !in taken {
      j := i;
    } else {
      j := FirstFreeIs(taken, n, k, i + 1);
    }
  }

  /** `n-vk`, and with a number after it from the second candidate on. */
  function Candidate(n: nat, k: nat, j: nat): string
  {
    if j <= 1 then Decimal(n) + "-v" + Decimal(k) else Decimal(n) + "-v" + Decimal(k) + "-" + Decimal(j)
  }

  /** The name is the first candidate that is not taken. */
  ghost predicate FirstCandidate(taken: set<string>, n: nat, k: nat, name: string)
  {
    exists j :: j >= 1 && name == Candidate(n, k, j) && name !in taken && forall m :: 1 <= m < j ==> Candidate(n, k, m) in taken
  }

  lemma FreshIsFirst(taken: set<string>, n: nat, k: nat)
    ensures FirstCandidate(taken, n, k, FreshRevision(taken, n, k))
  {
    FreeNameExists(taken, n, k);
    var j := FirstFreeIs(taken, n, k, 1);
    forall m | 1 <= m < j ensures Candidate(n, k, m) in taken {
      NameIsCandidate(n, k, m);
      assert RevisionName(n, k, m) in taken;
    }
    assert FreshRevision(taken, n, k) == Candidate(n, k, j);
  }

  lemma NameIsCandidate(n: nat, k: nat, m: nat)
    requires m >= 1
    ensures RevisionName(n, k, m) == Candidate(n, k, m)
  {
    assert m == 1 ==> Decimal(n) + "-v" + Decimal(k) + "" == Decimal(n) + "-v" + Decimal(k);
    assert m > 1 ==> Decimal(n) + "-v" + Decimal(k) + ("-" + Decimal(m)) == Decimal(n) + "-v" + Decimal(k) + "-" + Decimal(m);
  }

  // What a promotion does.

  datatype Owned = Owned(project: Project, artifact: Artifact)

  function FindSession(xs: seq<Artifact>, session: string): (r: Option<Artifact>)
    ensures r.Some? ==> r.value in xs && session in r.value.sessions
    ensures r.None? ==> forall x :: x in xs ==> session !in x.sessions
  {
    if xs == [] then None
    else if session in xs[0].sessions then Some(xs[0])
    else FindSession(xs[1..], session)
  }

  function FindOwner(ps: seq<Project>, session: string): (r: Option<Owned>)
    ensures r.Some? ==> r.value.project in ps && r.value.artifact in r.value.project.artifacts
                        && session in r.value.artifact.sessions
    ensures r.None? ==> forall p, x :: p in ps && x in p.artifacts ==> session !in x.sessions
  {
    if ps == [] then None
    else
      match FindSession(ps[0].artifacts, session)
      case Some(x) => Some(Owned(ps[0], x))
      case None => FindOwner(ps[1..], session)
  }

  function ReplaceArtifact(xs: seq<Artifact>, y: Artifact): seq<Artifact>
  {
    FilterMap((x: Artifact) => Some(if x.number == y.number then y else x), xs)
  }

  /** Redirects left at or under a newly assigned artifact address are deleted. */
  function Yielded(redirects: map<Address, Address>, p: string, n: nat): map<Address, Address>
  {
    map a | a in redirects && Owner(a) != ArtifactAt(p, n) :: redirects[a]
  }

  function WithVersion(x: Artifact, q: Request, revision: string): Artifact
  {
    var k := |x.versions| + 1;
    x.(versions := x.versions + [Version(q.versionUid, k, revision, q.date)], current := k)
  }

  function BlankArtifact(q: Request, n: nat): Artifact
  {
    Artifact(q.artifactUid, n, "", [q.session], [], 0)
  }

  /** Add a version to artifact `x` of `p`, which may be the artifact just assigned number `x.number`. */
  function Extended(p: Project, x: Artifact, q: Request, taken: set<string>): Artifact
  {
    WithVersion(x, q, FreshRevision(taken + Revisions(p), x.number, |x.versions| + 1))
  }

  function Grown(p: Project, q: Request, taken: set<string>): Project
    requires p.next.Some?
  {
    var n := p.next.value;
    p.(next := Some(n + 1), artifacts := p.artifacts + [Extended(p, BlankArtifact(q, n), q, taken)])
  }

  function NewProject(q: Request): Project
  {
    Project(q.project, q.name, Some(1), [])
  }

  function Promoted(r: Registry, q: Request, taken: set<string>): Result<Registry, PromotionError>
  {
    match FindOwner(r.projects, q.session)
    case Some(Owned(p, x)) =>
      if p.id != q.project then Err(SessionElsewhere)
      else
        var p' := p.(artifacts := ReplaceArtifact(p.artifacts, Extended(p, x, q, taken)));
        Ok(Registry(ReplaceProject(r.projects, p'), r.redirects - {VersionAt(p.id, x.number, |x.versions| + 1)}))
    case None =>
      match FindProject(r.projects, q.project)
      case Some(p) =>
        if p.next.None? then Err(NoNextNumber)
        else Ok(Registry(ReplaceProject(r.projects, Grown(p, q, taken)), Yielded(r.redirects, p.id, p.next.value)))
      case None =>
        Ok(Registry([Grown(NewProject(q), q, taken)] + r.projects, Yielded(r.redirects, q.project, 1)))
  }

  // The store's invariant.

  /** Session `s` makes the artifact at `a`. */
  ghost predicate Makes(ps: seq<Project>, s: string, a: Address)
  {
    a.ArtifactAt? && Lookup(ps, a.p, a.n).Some? && s in Lookup(ps, a.p, a.n).value.sessions
  }

  /** A session makes one artifact. */
  ghost predicate SessionsOnce(ps: seq<Project>)
  {
    && (forall a: Address :: a.ArtifactAt? && Lookup(ps, a.p, a.n).Some? ==> Distinct(Lookup(ps, a.p, a.n).value.sessions))
    && forall s, a, b :: Makes(ps, s, a) && Makes(ps, s, b) ==> a == b
  }

  /** Within a project no two versions share a revision. */
  ghost predicate RevisionsOnce(ps: seq<Project>)
  {
    forall a: Address, b: Address :: (RevisionAt(ps, a).Some? && a.p == b.p && RevisionAt(ps, a) == RevisionAt(ps, b)) ==> a == b
  }

  ghost predicate StoreInvariant(r: Registry)
  {
    && Sound(r)
    && SessionsOnce(r.projects)
    && RevisionsOnce(r.projects)
    && AllDense(r.projects)
  }

  /** The request makes a project whose id still redirects elsewhere. */
  predicate RevivesRetiredProject(r: Registry, q: Request)
  {
    && FindOwner(r.projects, q.session).None?
    && FindProject(r.projects, q.project).None?
    && ProjectAt(q.project) in r.redirects
  }

  /** `after` is `before` with artifact `n` of project `id` made or extended to `y`, and nothing else changed. */
  ghost predicate OnlyExtends(before: seq<Project>, after: seq<Project>, id: string, n: nat, y: Artifact)
  {
    && (forall p :: FindProject(after, p).Some? <==> FindProject(before, p).Some? || p == id)
    && (forall p, m :: Lookup(after, p, m) == if p == id && m == n then Some(y) else Lookup(before, p, m))
    && y.versions != []
    && match Lookup(before, id, n)
       case None => true
       case Some(x) => y.uid == x.uid && y.versions[..|y.versions| - 1] == x.versions
  }

  lemma ReplaceArtifactShape(xs: seq<Artifact>, x: Artifact, y: Artifact)
    requires DistinctNumbers(xs) && x in xs && x.number == y.number
    ensures DistinctNumbers(ReplaceArtifact(xs, y))
    ensures |ReplaceArtifact(xs, y)| == |xs|
    ensures forall z :: z in ReplaceArtifact(xs, y) <==> z == y || (z in xs && z.number != y.number)
    ensures forall m :: FindArtifact(ReplaceArtifact(xs, y), m) == if m == y.number then Some(y) else FindArtifact(xs, m)
  {
    var f := (z: Artifact) => Some(if z.number == y.number then y else z);
    FilterDistinct(f, xs);
    FilterTotal(f, xs);
    FilterMembers(f, xs);
    forall m ensures FindArtifact(ReplaceArtifact(xs, y), m) == if m == y.number then Some(y) else FindArtifact(xs, m) {
      FindArtifactFilter(f, xs, m);
    }
    assert f(x) == Some(y);
    forall z | z in xs && z.number != y.number ensures z in ReplaceArtifact(xs, y) {
      assert f(z) == Some(z);
    }
  }

  lemma {:induction false} FilterTotal<S, T>(f: S -> Option<T>, xs: seq<S>)
    requires forall x :: x in xs ==> f(x).Some?
    ensures |FilterMap(f, xs)| == |xs|
  {
    if xs != [] {
      FilterTotal(f, xs[1..]);
    }
  }

  lemma GrownShape(p: Project, q: Request, taken: set<string>)
    requires WellNumbered(p) && p.next.Some?
    ensures WellNumbered(Grown(p, q, taken))
    ensures Dense(p) ==> Dense(Grown(p, q, taken))
    ensures forall m :: FindArtifact(Grown(p, q, taken).artifacts, m) ==
              if m == p.next.value then Some(Extended(p, BlankArtifact(q, m), q, taken)) else FindArtifact(p.artifacts, m)
  {
    var n := p.next.value;
    var y := Extended(p, BlankArtifact(q, n), q, taken);
    forall m ensures FindArtifact(p.artifacts + [y], m) == if m == n then Some(y) else FindArtifact(p.artifacts, m) {
      FindArtifactConcat(p.artifacts, [y], m);
    }
  }

  lemma OwnerShape(p: Project, x: Artifact, q: Request, taken: set<string>)
    requires WellNumbered(p) && x in p.artifacts
    ensures var y := Extended(p, x, q, taken);
            var p' := p.(artifacts := ReplaceArtifact(p.artifacts, y));
            && WellNumbered(p') && (Dense(p) ==> Dense(p'))
            && forall m :: FindArtifact(p'.artifacts, m) == if m == x.number then Some(y) else FindArtifact(p.artifacts, m)
  {
    var y := Extended(p, x, q, taken);
    ReplaceArtifactShape(p.artifacts, x, y);
    assert WellVersioned(x);
    assert WellVersioned(y);
  }

  /** The redirects left are old ones, none at the new version's address nor under a newly assigned number. */
  ghost predicate OnlyYields(r: Registry, r': Registry, id: string, n: nat, y: Artifact)
  {
    && (forall a :: a in r'.redirects ==> a in r.redirects && r'.redirects[a] == r.redirects[a])
    && VersionAt(id, n, |y.versions|) !in r'.redirects
    && (Lookup(r.projects, id, n).None? ==> forall a :: a in r'.redirects ==> Owner(a) != ArtifactAt(id, n))
    && (forall p :: ProjectAt(p) in r.redirects ==> ProjectAt(p) in r'.redirects)
  }

  ghost predicate AllDense(ps: seq<Project>)
  {
    forall p :: p in ps ==> Dense(p)
  }

  ghost predicate Touches(r: Registry, r': Registry, id: string, n: nat, y: Artifact)
  {
    && OnlyExtends(r.projects, r'.projects, id, n, y)
    && OnlyYields(r, r', id, n, y)
    && WellFormed(r'.projects)
    && (AllDense(r.projects) ==> AllDense(r'.projects))
  }

  /** Replacing one project by one that differs in a single artifact changes that one lookup. */
  lemma ReplacedExtends(ps: seq<Project>, p: Project, p': Project, n: nat, y: Artifact)
    requires WellFormed(ps) && FindProject(ps, p.id) == Some(p) && p'.id == p.id && WellNumbered(p')
    requires Dense(p) ==> Dense(p')
    requires forall m :: FindArtifact(p'.artifacts, m) == if m == n then Some(y) else FindArtifact(p.artifacts, m)
    requires y.versions != []
    requires match FindArtifact(p.artifacts, n)
             case None => true
             case Some(x) => y.uid == x.uid && y.versions[..|y.versions| - 1] == x.versions
    ensures OnlyExtends(ps, ReplaceProject(ps, p'), p.id, n, y)
    ensures WellFormed(ReplaceProject(ps, p'))
    ensures AllDense(ps) ==> AllDense(ReplaceProject(ps, p'))
  {
    var ps' := ReplaceProject(ps, p');
    ReplaceProjectShape(ps, p, p');
    assert FindProject(ps', p.id) == Some(p');
    forall id, m ensures Lookup(ps', id, m) == if id == p.id && m == n then Some(y) else Lookup(ps, id, m) {
      assert FindProject(ps', id) == if id == p.id then Some(p') else FindProject(ps, id);
    }
  }

  lemma OwnerTouches(r: Registry, q: Request, taken: set<string>, p: Project, x: Artifact)
    requires WellFormed(r.projects) && FindOwner(r.projects, q.session) == Some(Owned(p, x)) && p.id == q.project
    ensures Touches(r, Promoted(r, q, taken).value, p.id, x.number, Extended(p, x, q, taken))
    ensures Lookup(r.projects, p.id, x.number).Some?
  {
    var y := Extended(p, x, q, taken);
    OwnerShape(p, x, q, taken);
    ReplacedExtends(r.projects, p, p.(artifacts := ReplaceArtifact(p.artifacts, y)), x.number, y);
  }

  lemma GrownTouches(r: Registry, q: Request, taken: set<string>, p: Project)
    requires WellFormed(r.projects) && FindOwner(r.projects, q.session).None?
    requires FindProject(r.projects, q.project) == Some(p) && p.next.Some?
    ensures var n := p.next.value;
            Touches(r, Promoted(r, q, taken).value, p.id, n, Extended(p, BlankArtifact(q, n), q, taken))
    ensures Lookup(r.projects, p.id, p.next.value).None?
  {
    var n := p.next.value;
    GrownShape(p, q, taken);
    ReplacedExtends(r.projects, p, Grown(p, q, taken), n, Extended(p, BlankArtifact(q, n), q, taken));
  }

  /** A project put in front, with one artifact, adds that one lookup. */
  lemma FrontExtends(ps: seq<Project>, made: Project, y: Artifact)
    requires WellFormed(ps) && FindProject(ps, made.id).None? && WellNumbered(made)
    requires forall m :: FindArtifact(made.artifacts, m) == if m == 1 then Some(y) else None
    requires y.versions != []
    ensures OnlyExtends(ps, [made] + ps, made.id, 1, y)
    ensures WellFormed([made] + ps)
    ensures AllDense(ps) && Dense(made) ==> AllDense([made] + ps)
  {
    hide FindArtifact, WellNumbered, Dense;
    var qs := [made] + ps;
    assert qs[1..] == ps;
    forall id ensures FindProject(qs, id) == if id == made.id then Some(made) else FindProject(ps, id) {
    }
    hide FindProject;
    forall id, m ensures Lookup(qs, id, m) == if id == made.id && m == 1 then Some(y) else Lookup(ps, id, m) {
    }
    assert forall q :: q in qs ==> q == made || q in ps;
  }

  lemma NewTouches(r: Registry, q: Request, taken: set<string>)
    requires WellFormed(r.projects) && FindOwner(r.projects, q.session).None?
    requires FindProject(r.projects, q.project).None?
    ensures Touches(r, Promoted(r, q, taken).value, q.project, 1,
                    Extended(NewProject(q), BlankArtifact(q, 1), q, taken))
  {
    var made := Grown(NewProject(q), q, taken);
    var y := Extended(NewProject(q), BlankArtifact(q, 1), q, taken);
    GrownShape(NewProject(q), q, taken);
    assert made.id == q.project && Dense(made) && |y.versions| == 1;
    hide NewProject, BlankArtifact, Grown, Extended, FreshRevision, WellNumbered, Dense, FindArtifact, WellFormed, OnlyExtends, AllDense;
    FrontExtends(r.projects, made, y);
  }

  // What every promotion keeps.

  lemma TouchesUnshadowed(r: Registry, r': Registry, id: string, n: nat, y: Artifact, a: Address)
    requires OnlyExtends(r.projects, r'.projects, id, n, y) && OnlyYields(r, r', id, n, y)
    requires a in r'.redirects && !Shadows(r.projects, a)
    ensures Shadows(r'.projects, a) <==> a == ProjectAt(id)
  {
    if !a.ProjectAt? {
      assert Lookup(r'.projects, a.p, a.n) == if a.p == id && a.n == n then Some(y) else Lookup(r.projects, a.p, a.n);
    }
  }

  lemma TouchesSound(r: Registry, r': Registry, id: string, n: nat, y: Artifact)
    requires Sound(r) && Touches(r, r', id, n, y)
    ensures TargetsLive(r')
    ensures Unshadowed(r') <==> ProjectAt(id) !in r.redirects
  {
    forall a | a in r'.redirects
      ensures Shadows(r'.projects, a) <==> a == ProjectAt(id)
      ensures Live(r'.projects, r'.redirects[a])
    {
      TouchesUnshadowed(r, r', id, n, y, a);
      TouchesKeeps(r, r', id, n, y, r.redirects[a]);
    }
  }

  /** Everything live stays live at its address: versions as they were, artifacts with at least their old versions. */
  lemma TouchesKeeps(r: Registry, r': Registry, id: string, n: nat, y: Artifact, a: Address)
    requires Touches(r, r', id, n, y) && Live(r.projects, a)
    ensures Live(r'.projects, a)
    ensures a.VersionAt? ==> At(r'.projects, a) == At(r.projects, a) && RevisionAt(r'.projects, a) == RevisionAt(r.projects, a)
    ensures a.ArtifactAt? ==> At(r'.projects, a).value.uid == At(r.projects, a).value.uid
                              && At(r'.projects, a).value.holds >= At(r.projects, a).value.holds
  {
    if !a.ProjectAt? {
      var x := Lookup(r.projects, a.p, a.n).value;
      if a.p == id && a.n == n {
        forall i | 0 <= i < |x.versions| ensures y.versions[i] == x.versions[i] {
          assert y.versions[..|y.versions| - 1][i] == x.versions[i];
        }
      } else {
        assert Lookup(r'.projects, a.p, a.n) == Some(x);
      }
    }
  }

  lemma TouchesSessions(r: Registry, r': Registry, id: string, n: nat, y: Artifact, session: string)
    requires SessionsOnce(r.projects) && OnlyExtends(r.projects, r'.projects, id, n, y)
    requires match Lookup(r.projects, id, n)
             case Some(x) => y.sessions == x.sessions
             case None => y.sessions == [session] && FindOwner(r.projects, session).None?
    ensures SessionsOnce(r'.projects)
  {
    var ps, ps' := r.projects, r'.projects;
    forall s, a | Makes(ps', s, a)
      ensures Makes(ps, s, a) || (a == ArtifactAt(id, n) && s == session && FindOwner(ps, s).None?)
    {
      assert Lookup(ps', a.p, a.n) == if a.p == id && a.n == n then Some(y) else Lookup(ps, a.p, a.n);
    }
    forall a: Address | a.ArtifactAt? && Lookup(ps', a.p, a.n).Some?
      ensures Distinct(Lookup(ps', a.p, a.n).value.sessions)
    {
      assert Lookup(ps', a.p, a.n) == if a.p == id && a.n == n then Some(y) else Lookup(ps, a.p, a.n);
    }
  }

  lemma TouchesRevisions(r: Registry, r': Registry, id: string, n: nat, y: Artifact)
    requires RevisionsOnce(r.projects) && OnlyExtends(r.projects, r'.projects, id, n, y)
    requires NewTo(r.projects, id, y.versions[|y.versions| - 1].revision)
    requires Lookup(r.projects, id, n).None? ==> |y.versions| == 1
    ensures RevisionsOnce(r'.projects)
  {
    var newest := VersionAt(id, n, |y.versions|);
    forall a: Address | RevisionAt(r'.projects, a).Some? && a != newest
      ensures RevisionAt(r.projects, a) == RevisionAt(r'.projects, a)
    {
      assert Lookup(r'.projects, a.p, a.n) == if a.p == id && a.n == n then Some(y) else Lookup(r.projects, a.p, a.n);
      if a.p == id && a.n == n {
        var x := Lookup(r.projects, a.p, a.n).value;
        assert y.versions[..|y.versions| - 1][a.k - 1] == x.versions[a.k - 1];
      }
    }
    assert RevisionAt(r'.projects, newest) == Some(y.versions[|y.versions| - 1].revision) by {
      assert Lookup(r'.projects, id, n) == Some(y);
    }
  }

  ghost predicate NewTo(ps: seq<Project>, id: string, revision: string)
  {
    forall a: Address :: a.p == id && RevisionAt(ps, a).Some? ==> RevisionAt(ps, a).value != revision
  }

  /** The last version is current, and is the one the request made. */
  ghost predicate MadeLast(q: Request, y: Artifact)
  {
    && y.versions != [] && y.current == |y.versions|
    && var v := y.versions[|y.versions| - 1];
       v.uid == q.versionUid && v.date == q.date && v.number == |y.versions|
  }

  /** Apart from its versions and which of them is current, the artifact is as it was, or as new ones are. */
  ghost predicate OtherwiseKept(before: Option<Artifact>, q: Request, y: Artifact)
  {
    match before
    case Some(x) => y == x.(versions := y.versions, current := y.current) && q.session in x.sessions
    case None => y.uid == q.artifactUid && y.sessions == [q.session] && y.title == ""
  }

  /** The entry a promotion makes or extends: its number, its new state, and what it had before. */
  ghost predicate IsTouched(r: Registry, q: Request, taken: set<string>, n: nat, y: Artifact)
  {
    && Promoted(r, q, taken).Ok?
    && Touches(r, Promoted(r, q, taken).value, q.project, n, y)
    && (match Lookup(r.projects, q.project, n)
        case Some(x) => y.sessions == x.sessions && FindOwner(r.projects, q.session).Some?
        case None => y.sessions == [q.session] && |y.versions| == 1 && FindOwner(r.projects, q.session).None?)
    && NewTo(r.projects, q.project, y.versions[|y.versions| - 1].revision)
    && MadeLast(q, y) && OtherwiseKept(Lookup(r.projects, q.project, n), q, y)
  }

  lemma OwnerIsTouched(r: Registry, q: Request, taken: set<string>, p: Project, x: Artifact)
    requires WellFormed(r.projects) && FindOwner(r.projects, q.session) == Some(Owned(p, x)) && p.id == q.project
    ensures IsTouched(r, q, taken, x.number, Extended(p, x, q, taken))
  {
    hide Touches, WellNumbered, FindArtifact;
    OwnerTouches(r, q, taken, p, x);
    OwnerIsFound(r, q, p, x);
    hide FindOwner, FindProject;
  }

  lemma OwnerIsFound(r: Registry, q: Request, p: Project, x: Artifact)
    requires WellFormed(r.projects) && FindOwner(r.projects, q.session) == Some(Owned(p, x))
    ensures FindProject(r.projects, p.id) == Some(p) && Lookup(r.projects, p.id, x.number) == Some(x)
  {
  }

  lemma GrownIsTouched(r: Registry, q: Request, taken: set<string>, p: Project)
    requires WellFormed(r.projects) && FindOwner(r.projects, q.session).None?
    requires FindProject(r.projects, q.project) == Some(p) && p.next.Some?
    ensures IsTouched(r, q, taken, p.next.value, Extended(p, BlankArtifact(q, p.next.value), q, taken))
  {
    GrownTouches(r, q, taken, p);
  }

  /** A new artifact has the project's next number; the version added has the first name that is free. */
  ghost predicate IsNumbered(r: Registry, q: Request, taken: set<string>, n: nat, y: Artifact)
  {
    var project := FindProject(r.projects, q.project);
    && (Lookup(r.projects, q.project, n).None? ==> Some(n) == if project.Some? then project.value.next else Some(1))
    && y.versions != []
    && FirstCandidate(taken + if project.Some? then Revisions(project.value) else {}, n, |y.versions|,
                      y.versions[|y.versions| - 1].revision)
  }

  lemma ExtendedIsNumbered(r: Registry, q: Request, taken: set<string>, p: Project, x: Artifact)
    requires FindProject(r.projects, q.project) == Some(p) || (FindProject(r.projects, q.project).None? && Revisions(p) == {})
    requires Lookup(r.projects, q.project, x.number).None? ==>
               Some(x.number) == if FindProject(r.projects, q.project).Some? then p.next else Some(1)
    ensures IsNumbered(r, q, taken, x.number, Extended(p, x, q, taken))
  {
    FreshIsFirst(taken + Revisions(p), x.number, |x.versions| + 1);
    assert FindProject(r.projects, q.project).None? ==> taken + Revisions(p) == taken + {};
    hide FirstCandidate, Revisions, Lookup;
  }

  lemma PromotedTouches(r: Registry, q: Request, taken: set<string>) returns (n: nat, y: Artifact)
    requires WellFormed(r.projects) && Promoted(r, q, taken).Ok?
    ensures IsTouched(r, q, taken, n, y) && IsNumbered(r, q, taken, n, y)
  {
    hide IsTouched, IsNumbered, Extended, WellFormed;
    match FindOwner(r.projects, q.session)
    case Some(Owned(p, x)) =>
      n, y := x.number, Extended(p, x, q, taken);
      OwnerIsTouched(r, q, taken, p, x);
      OwnerIsFound(r, q, p, x);
      ExtendedIsNumbered(r, q, taken, p, x);
    case None =>
      match FindProject(r.projects, q.project)
      case Some(p) =>
        n, y := p.next.value, Extended(p, BlankArtifact(q, p.next.value), q, taken);
        GrownIsTouched(r, q, taken, p);
        ExtendedIsNumbered(r, q, taken, p, BlankArtifact(q, p.next.value));
      case None =>
        ExtendedIsNumbered(r, q, taken, NewProject(q), BlankArtifact(q, 1));
        n, y := 1, Extended(NewProject(q), BlankArtifact(q, 1), q, taken);
        NewIsTouched(r, q, taken);
  }

  lemma NewIsTouched(r: Registry, q: Request, taken: set<string>)
    requires WellFormed(r.projects) && FindOwner(r.projects, q.session).None? && FindProject(r.projects, q.project).None?
    ensures IsTouched(r, q, taken, 1, Extended(NewProject(q), BlankArtifact(q, 1), q, taken))
  {
    NewTouches(r, q, taken);
  }

  /** A promotion keeps the whole invariant, unless it makes a project at an id that still redirects elsewhere;
      then, and only then, that redirect is left shadowing the new project. */
  lemma PromotionKeepsInvariant(r: Registry, q: Request, taken: set<string>)
    requires StoreInvariant(r) && Promoted(r, q, taken).Ok?
    ensures StoreInvariant(Promoted(r, q, taken).value) <==> !RevivesRetiredProject(r, q)
  {
    var r' := Promoted(r, q, taken).value;
    var n, y := PromotedTouches(r, q, taken);
    TouchesSound(r, r', q.project, n, y);
    TouchesSessions(r, r', q.project, n, y, q.session);
    TouchesRevisions(r, r', q.project, n, y);
    RevivesIff(r, q, taken);
  }

  /** In a sound registry only a project id that is not live can redirect. */
  lemma RevivesIff(r: Registry, q: Request, taken: set<string>)
    requires Unshadowed(r) && Promoted(r, q, taken).Ok?
    ensures RevivesRetiredProject(r, q) <==> ProjectAt(q.project) in r.redirects
  {
    if ProjectAt(q.project) in r.redirects {
      assert !Shadows(r.projects, ProjectAt(q.project));
    }
  }

  // Which version is live.

  /** A promotion leaves its session with one artifact, of the requested project, whose live version is the one just
      made, under a name new to the project, after all that it had; a session's first promotion makes the artifact.
      Every other artifact is untouched. */
  lemma PromotionGoesLive(r: Registry, q: Request, taken: set<string>) returns (a: Address)
    requires StoreInvariant(r) && Promoted(r, q, taken).Ok?
    ensures var ps, now := r.projects, Promoted(r, q, taken).value.projects;
            && a.ArtifactAt? && a.p == q.project && Makes(now, q.session, a)
            && (forall b :: Makes(now, q.session, b) ==> b == a)
            && var y := Lookup(now, a.p, a.n).value;
               && MadeLast(q, y) && NewTo(ps, q.project, y.versions[|y.versions| - 1].revision)
               && OtherwiseKept(Lookup(ps, a.p, a.n), q, y)
               && match Lookup(ps, a.p, a.n)
                  case Some(x) => y.versions[..|y.versions| - 1] == x.versions
                  case None => |y.versions| == 1 && forall b :: !Makes(ps, q.session, b)
    ensures forall p, n :: p != a.p || n != a.n ==> Lookup(Promoted(r, q, taken).value.projects, p, n) == Lookup(r.projects, p, n)
  {
    var r' := Promoted(r, q, taken).value;
    var n, y := PromotedTouches(r, q, taken);
    a := ArtifactAt(q.project, n);
    TouchesSessions(r, r', q.project, n, y, q.session);
    assert Lookup(r'.projects, a.p, a.n) == Some(y);
    assert Makes(r'.projects, q.session, a);
    if Lookup(r.projects, a.p, a.n).None? {
      forall b | Makes(r.projects, q.session, b) ensures false {
        NoOwnerMakes(r.projects, q.session, b);
      }
    }
  }

  lemma NoOwnerMakes(ps: seq<Project>, s: string, b: Address)
    requires FindOwner(ps, s).None?
    ensures !Makes(ps, s, b)
  {
  }

  // A registry as the merge of project "a" into "b" leaves it, and a promotion into "a".

  function MergedAwayRegistry(): Registry
  {
    Registry([Project("b", "b", Some(2), [Artifact(1, 1, "", ["s"], [Version(1, 1, "a-1-v1", 0)], 1)])],
             map[ProjectAt("a") := ProjectAt("b"), ArtifactAt("a", 1) := ArtifactAt("b", 1),
                 VersionAt("a", 1, 1) := VersionAt("b", 1, 1)])
  }

  const REVIVAL := Request("a", "a", "s2", 1, 2, 2)

  lemma MergedAwayOnce(a: Address)
    requires !a.ProjectAt? && Lookup(MergedAwayRegistry().projects, a.p, a.n).Some?
    ensures a.p == "b" && a.n == 1
    ensures Lookup(MergedAwayRegistry().projects, a.p, a.n) == Some(MergedAwayRegistry().projects[0].artifacts[0])
  {
  }

  lemma MergedAwayIsSound()
    ensures Sound(MergedAwayRegistry()) && AllDense(MergedAwayRegistry().projects)
  {
  }

  lemma MergedAwayKeepsInvariant()
    ensures StoreInvariant(MergedAwayRegistry())
  {
    hide Sound, AllDense, MergedAwayRegistry, Lookup;
    MergedAwayIsSound();
    var ps := MergedAwayRegistry().projects;
    forall a: Address | a.ArtifactAt? && Lookup(ps, a.p, a.n).Some? ensures Distinct(Lookup(ps, a.p, a.n).value.sessions) {
      MergedAwayOnce(a);
      MergedAwaySessions();
    }
    forall s, a, b | Makes(ps, s, a) && Makes(ps, s, b) ensures a == b {
      MergedAwayOnce(a);
      MergedAwayOnce(b);
    }
    forall a: Address, b: Address | RevisionAt(ps, a).Some? && a.p == b.p && RevisionAt(ps, a) == RevisionAt(ps, b)
      ensures a == b
    {
      MergedAwayOnce(a);
      MergedAwayOnce(b);
      MergedAwaySessions();
    }
  }

  lemma MergedAwaySessions()
    ensures var x := MergedAwayRegistry().projects[0].artifacts[0]; x.sessions == ["s"] && |x.versions| == 1
  {
  }

  /** The promotion succeeds, makes project "a" anew, and the redirect from it now shadows it. */
  lemma PromotionCanBreakInvariant()
    ensures var r := MergedAwayRegistry();
            && StoreInvariant(r) && Promoted(r, REVIVAL, {}).Ok? && RevivesRetiredProject(r, REVIVAL)
            && !StoreInvariant(Promoted(r, REVIVAL, {}).value)
  {
    MergedAwayKeepsInvariant();
    hide StoreInvariant;
    PromotionKeepsInvariant(MergedAwayRegistry(), REVIVAL, {});
  }

  // Whole runs.

  datatype Promotion = Promotion(request: Request, taken: set<string>)

  /** A promotion that raises leaves the registry as it was. */
  function Step(r: Registry, e: Promotion): Registry
  {
    match Promoted(r, e.request, e.taken)
    case Ok(r') => r'
    case Err(_) => r
  }

  function Run(r: Registry, es: seq<Promotion>): Registry
    decreases |es|
  {
    if es == [] then r else Run(Step(r, es[0]), es[1..])
  }

  /** No promotion of the run makes a project at an id that still redirects elsewhere. */
  ghost predicate RevivesNothing(r: Registry, es: seq<Promotion>)
    decreases |es|
  {
    es == [] || (!RevivesRetiredProject(r, es[0].request) && RevivesNothing(Step(r, es[0]), es[1..]))
  }

  lemma {:induction false} RunsKeepInvariant(r: Registry, es: seq<Promotion>)
    requires StoreInvariant(r) && RevivesNothing(r, es)
    ensures StoreInvariant(Run(r, es))
    decreases |es|
  {
    if es != [] {
      if Promoted(r, es[0].request, es[0].taken).Ok? {
        PromotionKeepsInvariant(r, es[0].request, es[0].taken);
      }
      RunsKeepInvariant(Step(r, es[0]), es[1..]);
    }
  }

  /** Over any run each version keeps its address and its revision, and each artifact its address and its versions. */
  lemma {:induction false} RunsKeepAddresses(r: Registry, es: seq<Promotion>, a: Address)
    requires WellFormed(r.projects) && Live(r.projects, a)
    ensures WellFormed(Run(r, es).projects) && Live(Run(r, es).projects, a)
    ensures a.VersionAt? ==> At(Run(r, es).projects, a) == At(r.projects, a)
                             && RevisionAt(Run(r, es).projects, a) == RevisionAt(r.projects, a)
    ensures a.ArtifactAt? ==> At(Run(r, es).projects, a).value.uid == At(r.projects, a).value.uid
                              && At(Run(r, es).projects, a).value.holds >= At(r.projects, a).value.holds
    decreases |es|
  {
    if es != [] {
      if Promoted(r, es[0].request, es[0].taken).Ok? {
        var n, y := PromotedTouches(r, es[0].request, es[0].taken);
        TouchesKeeps(r, Step(r, es[0]), es[0].request.project, n, y, a);
      }
      RunsKeepAddresses(Step(r, es[0]), es[1..], a);
    }
  }

  /** Under the invariant a promotion fails in one case only: the session already makes another project's artifact. */
  lemma PromotionFailsOnlyElsewhere(r: Registry, q: Request, taken: set<string>)
    requires StoreInvariant(r)
    ensures Promoted(r, q, taken).Err? <==> exists a :: Makes(r.projects, q.session, a) && a.p != q.project
  {
    match FindOwner(r.projects, q.session)
    case Some(Owned(p, x)) =>
      assert Makes(r.projects, q.session, ArtifactAt(p.id, x.number));
    case None =>
  }

  /** The last request of a run that promoted into the artifact at `a`. */
  ghost function LastInto(r: Registry, es: seq<Promotion>, a: Address): Option<Request>
    decreases |es|
  {
    if es == [] then None
    else
      match LastInto(Step(r, es[0]), es[1..], a)
      case Some(q) => Some(q)
      case None =>
        var q := es[0].request;
        if Promoted(r, q, es[0].taken).Ok? && Makes(Step(r, es[0]).projects, q.session, a) then Some(q) else None
  }

  /** After any run the live version of each artifact is what the last promotion into it made; an artifact without one
      is as it was. */
  /** The artifact promoted into has the project's next number if it is new, and its new version the first free name. */
  lemma PromotionNumbersAndNames(r: Registry, q: Request, taken: set<string>, a: Address)
    requires StoreInvariant(r) && Promoted(r, q, taken).Ok? && Makes(Promoted(r, q, taken).value.projects, q.session, a)
    ensures a.p == q.project
    ensures IsNumbered(r, q, taken, a.n, Lookup(Promoted(r, q, taken).value.projects, a.p, a.n).value)
  {
    hide Promoted, IsNumbered, StoreInvariant;
    StoreIsWellFormed(r);
    var n, y := PromotedTouches(r, q, taken);
    var b := PromotionGoesLive(r, q, taken);
    TouchedIsMade(r, q, taken, n, y);
  }

  /** A project that a promotion makes has the name asked for and room for the next artifact. */
  lemma NewProjectNamed(r: Registry, q: Request, taken: set<string>)
    requires Promoted(r, q, taken).Ok? && FindProject(r.projects, q.project).None?
    ensures var made := FindProject(Promoted(r, q, taken).value.projects, q.project);
            made.Some? && made.value.name == q.name && made.value.next == Some(2) && |made.value.artifacts| == 1
  {
    hide Extended, Yielded;
  }

  lemma StoreIsWellFormed(r: Registry)
    requires StoreInvariant(r)
    ensures WellFormed(r.projects)
  {
  }

  lemma TouchedIsMade(r: Registry, q: Request, taken: set<string>, n: nat, y: Artifact)
    requires IsTouched(r, q, taken, n, y)
    ensures Lookup(Promoted(r, q, taken).value.projects, q.project, n) == Some(y)
    ensures Makes(Promoted(r, q, taken).value.projects, q.session, ArtifactAt(q.project, n))
  {
    hide Promoted;
  }

  lemma {:induction false} RunsKeepLatestLive(r: Registry, es: seq<Promotion>, a: Address)
    requires StoreInvariant(r) && RevivesNothing(r, es) && a.ArtifactAt?
    ensures match LastInto(r, es, a)
            case None => Lookup(Run(r, es).projects, a.p, a.n) == Lookup(r.projects, a.p, a.n)
            case Some(q) =>
              && a.p == q.project && Lookup(Run(r, es).projects, a.p, a.n).Some?
              && MadeLast(q, Lookup(Run(r, es).projects, a.p, a.n).value)
    decreases |es|
  {
    if es != [] {
      hide Promoted, StoreInvariant, Lookup, MadeLast;
      var q, next := es[0].request, Step(r, es[0]);
      if Promoted(r, q, es[0].taken).Ok? {
        PromotionKeepsInvariant(r, q, es[0].taken);
        var b := PromotionGoesLive(r, q, es[0].taken);
        assert Makes(next.projects, q.session, a) ==> a == b;
      }
      RunsKeepLatestLive(next, es[1..], a);
    }
  }
}

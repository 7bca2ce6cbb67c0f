/** Following redirects to a live artifact or version, with a bound on the number of hops. */
module Resolution {
  import opened Basics
  import opened Registry

  /** Version 0 stands for the artifact's live version. */
  datatype Place = Place(project: Project, artifact: Artifact, version: nat)

  datatype LookupError = NotAnArtifact | NoArtifact | NoVersion | RedirectLoop

  /** The redirect entry that catches `a`: its own, or its artifact's. */
  function Entry(redirects: map<Address, Address>, a: Address): Option<Address>
  {
    if a.ProjectAt? then None
    else if a in redirects then Some(a)
    else if Owner(a) in redirects then Some(Owner(a))
    else None
  }

  function Hop(redirects: map<Address, Address>, a: Address): Option<Address>
  {
    match Entry(redirects, a)
    case None => None
    case Some(key) => Some(redirects[key])
  }

  /** Where an address that no redirect catches lands. */
  function Land(ps: seq<Project>, a: Address): Result<Place, LookupError>
  {
    if a.ProjectAt? then Err(NotAnArtifact)
    else
      match FindProject(ps, a.p)
      case None => Err(NoArtifact)
      case Some(project) =>
        match FindArtifact(project.artifacts, a.n)
        case None => Err(NoArtifact)
        case Some(x) =>
          var k := if a.VersionAt? then a.k else 0;
          if k <= |x.versions| then Ok(Place(project, x, k)) else Err(NoVersion)
  }

  function ResolveWithin(r: Registry, a: Address, hops: nat): Result<Place, LookupError>
    decreases hops
  {
    if hops == 0 then Err(RedirectLoop)
    else
      match Hop(r.redirects, a)
      case Some(b) => ResolveWithin(r, b, hops - 1)
      case None => Land(r.projects, a)
  }

  function Resolve(r: Registry, a: Address): Result<Place, LookupError>
  {
    ResolveWithin(r, a, |r.redirects| + 1)
  }

  /** The address reached after `n` hops, when there are that many. */
  ghost function Walk(redirects: map<Address, Address>, a: Address, n: nat): Option<Address>
  {
    if n == 0 then Some(a)
    else
      match Walk(redirects, a, n - 1)
      case None => None
      case Some(b) => Hop(redirects, b)
  }

  ghost predicate NeverEnds(redirects: map<Address, Address>, a: Address)
  {
    forall n: nat :: Walk(redirects, a, n).Some?
  }

  /** Resolution in the form of a loop that reassigns the address. */
  method Locate(r: Registry, address: Address) returns (found: Result<Place, LookupError>)
    ensures found == Resolve(r, address)
    ensures found == Err(RedirectLoop) <==> NeverEnds(r.redirects, address)
  {
    var current := address;
    var budget := |r.redirects| + 1;
    while budget > 0
      invariant 0 <= budget
      invariant ResolveWithin(r, current, budget) == Resolve(r, address)
    {
      match Hop(r.redirects, current) {
        case Some(next) => current := next;
        case None =>
          LoopIffNeverEnds(r, address);
          return Land(r.projects, current);
      }
      budget := budget - 1;
    }
    LoopIffNeverEnds(r, address);
    found := Err(RedirectLoop);
  }

  lemma {:induction false} WalkShift(redirects: map<Address, Address>, a: Address, n: nat)
    requires Hop(redirects, a).Some?
    ensures Walk(redirects, a, n + 1) == Walk(redirects, Hop(redirects, a).value, n)
  {
    if n > 0 {
      WalkShift(redirects, a, n - 1);
    } else {
      assert Walk(redirects, a, 1) == Hop(redirects, a);
    }
  }

  lemma {:induction false} WalkPrefix(redirects: map<Address, Address>, a: Address, m: nat, n: nat)
    requires m <= n && Walk(redirects, a, n).Some?
    ensures Walk(redirects, a, m).Some?
  {
    if m < n {
      WalkPrefix(redirects, a, m, n - 1);
    }
  }

  /** The bounded search gives up exactly when that many hops exist. */
  lemma {:induction false} GivesUpIff(r: Registry, a: Address, hops: nat)
    ensures ResolveWithin(r, a, hops) == Err(RedirectLoop) <==> Walk(r.redirects, a, hops).Some?
    decreases hops
  {
    if hops > 0 {
      match Hop(r.redirects, a)
      case Some(b) =>
        WalkShift(r.redirects, a, hops - 1);
        GivesUpIff(r, b, hops - 1);
      case None =>
        assert Walk(r.redirects, a, 0) == Some(a);
        assert Walk(r.redirects, a, 1).None?;
        if Walk(r.redirects, a, hops).Some? {
          WalkPrefix(r.redirects, a, 1, hops);
        }
    }
  }

  /** Once two steps of a walk agree the walk repeats for ever. */
  lemma {:induction false} WalkRepeats(redirects: map<Address, Address>, a: Address, i: nat, j: nat, n: nat)
    requires i < j && Walk(redirects, a, j).Some? && Walk(redirects, a, i) == Walk(redirects, a, j)
    ensures Walk(redirects, a, n).Some?
    decreases n
  {
    if n <= j {
      WalkPrefix(redirects, a, n, j);
    } else {
      WalkRepeats(redirects, a, i, j, n - (j - i));
      WalkAgrees(redirects, a, i, j, n - j);
    }
  }

  lemma {:induction false} WalkAgrees(redirects: map<Address, Address>, a: Address, i: nat, j: nat, d: nat)
    requires Walk(redirects, a, i) == Walk(redirects, a, j)
    ensures Walk(redirects, a, i + d) == Walk(redirects, a, j + d)
  {
    if d > 0 {
      WalkAgrees(redirects, a, i, j, d - 1);
    }
  }

  /** The redirect entry used by hop `i` of a walk. */
  ghost function EntryUsed(redirects: map<Address, Address>, a: Address, i: nat): (key: Address)
    requires Walk(redirects, a, i + 1).Some?
    ensures key in redirects && Walk(redirects, a, i + 1) == Some(redirects[key])
  {
    Entry(redirects, Walk(redirects, a, i).value).value
  }

  /** As many hops as there are redirects plus one cannot all use different entries. */
  lemma LongWalkRepeats(redirects: map<Address, Address>, a: Address) returns (i: nat, j: nat)
    requires Walk(redirects, a, |redirects| + 1).Some?
    ensures i < j && Walk(redirects, a, j).Some? && Walk(redirects, a, i) == Walk(redirects, a, j)
  {
    var n := |redirects| + 1;
    forall m: nat | m <= n ensures Walk(redirects, a, m).Some? {
      WalkPrefix(redirects, a, m, n);
    }
    var used := seq(n, h requires 0 <= h < n && Walk(redirects, a, h + 1).Some? => EntryUsed(redirects, a, h));
    assert forall h :: 0 <= h < n ==> used[h] == EntryUsed(redirects, a, h);
    assert Elements(used) <= redirects.Keys;
    Pigeonhole(used, redirects.Keys);
    var x, y :| 0 <= x < y < |used| && used[x] == used[y];
    i, j := x + 1, y + 1;
  }

  lemma LongWalkNeverEnds(redirects: map<Address, Address>, a: Address)
    requires Walk(redirects, a, |redirects| + 1).Some?
    ensures NeverEnds(redirects, a)
  {
    var i, j := LongWalkRepeats(redirects, a);
    forall m: nat ensures Walk(redirects, a, m).Some? {
      WalkRepeats(redirects, a, i, j, m);
    }
  }

  /** A loop is reported exactly when following redirects from the address never ends. */
  lemma LoopIffNeverEnds(r: Registry, a: Address)
    ensures Resolve(r, a) == Err(RedirectLoop) <==> NeverEnds(r.redirects, a)
  {
    GivesUpIff(r, a, |r.redirects| + 1);
    if Walk(r.redirects, a, |r.redirects| + 1).Some? {
      LongWalkNeverEnds(r.redirects, a);
    }
  }

  /** A resolution that ends is not changed by allowing one hop more. */
  lemma {:induction false} OneMoreHop(r: Registry, a: Address, hops: nat)
    requires ResolveWithin(r, a, hops) != Err(RedirectLoop)
    ensures ResolveWithin(r, a, hops + 1) == ResolveWithin(r, a, hops)
    decreases hops
  {
    match Hop(r.redirects, a)
    case Some(b) =>
      if hops > 0 {
        OneMoreHop(r, b, hops - 1);
      }
    case None =>
  }

  /** A place is where the live address `a` is. */
  ghost predicate Reaches(found: Result<Place, LookupError>, ps: seq<Project>, a: Address)
  {
    && found.Ok?
    && !a.ProjectAt?
    && FindProject(ps, a.p) == Some(found.value.project)
    && FindArtifact(found.value.project.artifacts, a.n) == Some(found.value.artifact)
    && found.value.version == if a.VersionAt? then a.k else 0
  }

  /** Nothing stands between a live address and its artifact. */
  lemma LiveResolvesToItself(r: Registry, a: Address, hops: nat)
    requires Unshadowed(r) && Live(r.projects, a) && !a.ProjectAt? && hops > 0
    ensures Reaches(ResolveWithin(r, a, hops), r.projects, a)
  {
    assert Shadows(r.projects, a) && Shadows(r.projects, Owner(a));
  }

  /** In a sound registry one hop is enough: a redirect's address resolves to the redirect's own target. */
  lemma RedirectResolvesToTarget(r: Registry, a: Address)
    requires Unshadowed(r) && TargetsLive(r) && a in r.redirects && !a.ProjectAt?
    ensures Reaches(Resolve(r, a), r.projects, r.redirects[a])
  {
    assert |r.redirects| > 0 by {
      assert a in r.redirects.Keys;
    }
    LiveResolvesToItself(r, r.redirects[a], |r.redirects|);
  }

  /** What every address of a sound registry answers: the end of its own redirect, or of its artifact's, which keeps no
      version of its own; otherwise the artifact it names at the version it names, or what is missing. */
  lemma SoundAnswers(r: Registry, a: Address)
    requires Unshadowed(r) && TargetsLive(r)
    ensures var found := Resolve(r, a);
            if a.ProjectAt? then found == Err(NotAnArtifact)
            else if a in r.redirects then Reaches(found, r.projects, r.redirects[a])
            else if Owner(a) in r.redirects then Reaches(found, r.projects, r.redirects[Owner(a)])
            else
              match Lookup(r.projects, a.p, a.n)
              case None => found == Err(NoArtifact)
              case Some(x) =>
                if a.VersionAt? && a.k > |x.versions| then found == Err(NoVersion)
                else
                  && found.Ok? && found.value.artifact == x && found.value.project.id == a.p
                  && found.value.version == if a.VersionAt? then a.k else 0
  {
    if !a.ProjectAt? && (a in r.redirects || Owner(a) in r.redirects) {
      assert |r.redirects| > 0 by {
        assert (if a in r.redirects then a else Owner(a)) in r.redirects.Keys;
      }
      LiveResolvesToItself(r, Hop(r.redirects, a).value, |r.redirects|);
    }
  }

  /** In a sound registry no address loops, whatever it spells. */
  lemma SoundNeverLoops(r: Registry, a: Address)
    requires Unshadowed(r) && TargetsLive(r)
    ensures Resolve(r, a) != Err(RedirectLoop)
  {
    if Hop(r.redirects, a).Some? {
      var b := Hop(r.redirects, a).value;
      assert |r.redirects| > 0 by {
        assert Entry(r.redirects, a).value in r.redirects.Keys;
      }
      LiveResolvesToItself(r, b, |r.redirects|);
    }
  }
}

/** The check every registry must pass before it is written. */
module StoreCheck {
  import opened Basics
  import Sorting
  import opened Registry
  import opened Resolution
  import opened Promotion
  import opened Merge
  import opened Fold

  datatype StoreError =
    | InvalidProject(id: string)
    | NotDense(id: string)
    | WrongNextNumber(id: string)
    | InvalidNumber(id: string, n: nat)
    | SessionMakesTwo(session: string)
    | VersionsNotInOrder(id: string, n: nat)
    | CurrentNotRegistered(id: string, n: nat)
    | InvalidRedirect(a: Address)
    | TargetNotLive(a: Address)

  // What the check asks.

  predicate SlugChar(c: char)
  {
    'a' <= c <= 'z' || '0' <= c <= '9'
  }

  /** Words of lower-case letters and digits, joined by single hyphens. */
  predicate Slug(s: string)
  {
    && s != "" && SlugChar(s[0]) && SlugChar(s[|s| - 1])
    && forall i :: 0 < i < |s| ==> SlugChar(s[i]) || (s[i] == '-' && s[i - 1] != '-')
  }

  /** The numbers in order are 1..N. */
  predicate NumbersDense(xs: seq<Artifact>)
  {
    forall i :: 0 <= i < |xs| ==> ByNumber(xs)[i].number == i + 1
  }

  predicate VersionsInOrder(x: Artifact)
  {
    x.versions != [] && forall i :: 0 <= i < |x.versions| ==> x.versions[i].number == i + 1
  }

  predicate CurrentRegistered(x: Artifact)
  {
    1 <= x.current <= |x.versions|
  }

  function StoreSessions(ps: seq<Project>): seq<string>
  {
    if ps == [] then [] else AllSessions(ps[0].artifacts) + StoreSessions(ps[1..])
  }

  predicate TargetResolves(r: Registry, target: Address)
  {
    if target.ProjectAt? then FindProject(r.projects, target.p).Some? else Resolve(r, target).Ok?
  }

  ghost predicate ProjectAccepted(p: Project)
  {
    && NumbersDense(p.artifacts) && p.next == Some(|p.artifacts| + 1)
    && forall x :: x in p.artifacts ==> VersionsInOrder(x) && CurrentRegistered(x)
  }

  ghost predicate RedirectAccepted(r: Registry, a: Address)
    requires a in r.redirects
  {
    Slug(a.p) && !Shadows(r.projects, a) && TargetResolves(r, r.redirects[a])
  }

  ghost predicate Accepted(r: Registry)
  {
    && DistinctIds(r.projects)
    && (forall p :: p in r.projects ==> Slug(p.id) && ProjectAccepted(p))
    && Distinct(StoreSessions(r.projects))
    && (forall a :: a in r.redirects ==> RedirectAccepted(r, a))
  }

  // The check as the loops that collect its findings.

  lemma DistinctAppend<T>(s: seq<T>, x: T)
    ensures Distinct(s + [x]) <==> Distinct(s) && x !in s
  {
    if Distinct(s + [x]) {
      forall i, j | 0 <= i < j < |s| ensures s[i] != s[j] {
        assert (s + [x])[i] != (s + [x])[j];
      }
      forall i | 0 <= i < |s| ensures s[i] != x {
        assert (s + [x])[i] != (s + [x])[|s|];
      }
    }
  }

  /** Note the sessions of one artifact; `seen` holds those of the artifacts before it. */
  method CheckSessions(x: Artifact, seen: set<string>, ghost told: seq<string>)
    returns (errors: seq<StoreError>, more: set<string>)
    requires seen == Elements(told)
    ensures more == Elements(told + x.sessions)
    ensures Distinct(told) ==> (errors == [] <==> Distinct(told + x.sessions))
  {
    errors, more := [], seen;
    assert told + x.sessions[..0] == told;
    for k := 0 to |x.sessions|
      invariant more == Elements(told + x.sessions[..k])
      invariant Distinct(told) ==> (errors == [] <==> Distinct(told + x.sessions[..k]))
    {
      var session := x.sessions[k];
      assert told + x.sessions[..k + 1] == told + x.sessions[..k] + [session];
      DistinctAppend(told + x.sessions[..k], session);
      if session in more {
        errors := errors + [SessionMakesTwo(session)];
      }
      more := more + {session};
    }
    assert x.sessions[..|x.sessions|] == x.sessions;
  }

  lemma DistinctPrefix<T>(s: seq<T>, t: seq<T>)
    requires Distinct(s + t)
    ensures Distinct(s)
  {
    forall i, j | 0 <= i < j < |s| ensures s[i] != s[j] {
      assert (s + t)[i] != (s + t)[j];
    }
  }

  /** Dense numbers start at 1 and do not repeat. */
  lemma DenseNumbersDiffer(xs: seq<Artifact>)
    requires NumbersDense(xs)
    ensures DistinctNumbers(xs) && forall x :: x in xs ==> 1 <= x.number <= |xs|
  {
    var ys := ByNumber(xs);
    Sorting.SortByPermutes(NumberKey, xs);
    PermutationDistinctNumbers(ys, xs);
    forall x | x in xs ensures 1 <= x.number <= |xs| {
      var i :| 0 <= i < |ys| && ys[i] == x;
    }
  }

  /** Everything the check asks of one artifact but its sessions. */
  ghost predicate ArtifactAccepted(x: Artifact)
  {
    VersionsInOrder(x) && CurrentRegistered(x)
  }

  /** The findings about one project. */
  method CheckProject(p: Project, seen: set<string>, ghost told: seq<string>)
    returns (errors: seq<StoreError>, more: set<string>)
    requires seen == Elements(told)
    ensures more == Elements(told + AllSessions(p.artifacts))
    ensures Distinct(told) ==> (errors == [] <==> ProjectAccepted(p) && Distinct(told + AllSessions(p.artifacts)))
  {
    hide Distinct, NumbersDense, VersionsInOrder, CurrentRegistered, AllSessions, Elements;
    errors, more := [], seen;
    if !NumbersDense(p.artifacts) {
      errors := errors + [NotDense(p.id)];
    }
    if p.next != Some(|p.artifacts| + 1) {
      errors := errors + [WrongNextNumber(p.id)];
    }
    ghost var shaped := NumbersDense(p.artifacts) && p.next == Some(|p.artifacts| + 1);
    var numbers: set<nat> := {};
    NoSessionsYet(told, p);
    for i := 0 to |p.artifacts|
      invariant numbers == set j | 0 <= j < i :: p.artifacts[j].number
      invariant more == Elements(told + AllSessions(p.artifacts[..i]))
      invariant Distinct(told) ==>
                  (errors == [] <==> shaped && Distinct(told + AllSessions(p.artifacts[..i]))
                                     && forall j :: 0 <= j < i ==> ArtifactAccepted(p.artifacts[j]))
    {
      var x := p.artifacts[i];
      ghost var before := told + AllSessions(p.artifacts[..i]);
      NextSessions(told, p, i);
      NumberIsNew(p, i);
      if x.number < 1 || x.number in numbers {
        errors := errors + [InvalidNumber(p.id, x.number)];
      }
      numbers := numbers + {x.number};
      var clashes;
      clashes, more := CheckSessions(x, more, before);
      errors := errors + clashes;
      if !VersionsInOrder(x) {
        errors := errors + [VersionsNotInOrder(p.id, x.number)];
      } else if !CurrentRegistered(x) {
        errors := errors + [CurrentNotRegistered(p.id, x.number)];
      }
    }
    AllArtifacts(p);
  }

  lemma NoSessionsYet(told: seq<string>, p: Project)
    ensures told + AllSessions(p.artifacts[..0]) == told
  {
  }

  lemma NextSessions(told: seq<string>, p: Project, i: nat)
    requires i < |p.artifacts|
    ensures told + AllSessions(p.artifacts[..i + 1]) == told + AllSessions(p.artifacts[..i]) + p.artifacts[i].sessions
    ensures Distinct(told + AllSessions(p.artifacts[..i + 1])) ==> Distinct(told + AllSessions(p.artifacts[..i]))
  {
    assert p.artifacts[..i + 1] == p.artifacts[..i] + [p.artifacts[i]];
    SessionsAppend(p.artifacts[..i], p.artifacts[i]);
    assert told + AllSessions(p.artifacts[..i + 1]) == told + AllSessions(p.artifacts[..i]) + p.artifacts[i].sessions;
    if Distinct(told + AllSessions(p.artifacts[..i + 1])) {
      DistinctPrefix(told + AllSessions(p.artifacts[..i]), p.artifacts[i].sessions);
    }
  }

  lemma NumberIsNew(p: Project, i: nat)
    requires i < |p.artifacts|
    ensures NumbersDense(p.artifacts) ==>
              p.artifacts[i].number >= 1 && p.artifacts[i].number !in set j | 0 <= j < i :: p.artifacts[j].number
  {
    if NumbersDense(p.artifacts) {
      DenseNumbersDiffer(p.artifacts);
      assert p.artifacts[i] in p.artifacts;
    }
  }

  lemma AllArtifacts(p: Project)
    ensures p.artifacts[..|p.artifacts|] == p.artifacts
    ensures (forall j :: 0 <= j < |p.artifacts| ==> ArtifactAccepted(p.artifacts[j])) <==>
            (forall x :: x in p.artifacts ==> VersionsInOrder(x) && CurrentRegistered(x))
  {
    hide VersionsInOrder, CurrentRegistered;
    if forall j :: 0 <= j < |p.artifacts| ==> ArtifactAccepted(p.artifacts[j]) {
      forall x | x in p.artifacts ensures VersionsInOrder(x) && CurrentRegistered(x) {
        var j :| 0 <= j < |p.artifacts| && p.artifacts[j] == x;
        assert ArtifactAccepted(p.artifacts[j]);
      }
    }
  }

  lemma {:induction false} StoreSessionsAppend(ps: seq<Project>, p: Project)
    ensures StoreSessions(ps + [p]) == StoreSessions(ps) + AllSessions(p.artifacts)
  {
    if ps == [] {
      assert [p][1..] == [] && ps + [p] == [p];
    } else {
      assert (ps + [p])[1..] == ps[1..] + [p];
      StoreSessionsAppend(ps[1..], p);
    }
  }

  /** Ids without repeats, and each project in order. */
  ghost predicate ProjectsAccepted(ps: seq<Project>)
  {
    DistinctIds(ps) && (forall p :: p in ps ==> Slug(p.id) && ProjectAccepted(p)) && Distinct(StoreSessions(ps))
  }

  lemma AcceptedAppend(ps: seq<Project>, p: Project)
    ensures ProjectsAccepted(ps + [p]) <==>
              && ProjectsAccepted(ps) && Slug(p.id) && ProjectAccepted(p) && (forall q :: q in ps ==> q.id != p.id)
              && Distinct(StoreSessions(ps) + AllSessions(p.artifacts))
  {
    StoreSessionsAppend(ps, p);
    IdsAppend(ps, p);
    hide Slug, ProjectAccepted, DistinctIds, Distinct, AllSessions, StoreSessions;
    if ProjectsAccepted(ps + [p]) {
      DistinctPrefix(StoreSessions(ps), AllSessions(p.artifacts));
      assert p in ps + [p] && forall q :: q in ps ==> q in ps + [p];
    }
  }

  lemma IdsAppend(ps: seq<Project>, p: Project)
    ensures DistinctIds(ps + [p]) <==> DistinctIds(ps) && forall q :: q in ps ==> q.id != p.id
  {
    var qs := ps + [p];
    assert qs[|ps|] == p && forall i :: 0 <= i < |ps| ==> qs[i] == ps[i];
    if DistinctIds(qs) {
      forall q | q in ps ensures q.id != p.id {
        var i :| 0 <= i < |ps| && ps[i] == q;
        assert qs[i].id != qs[|ps|].id;
      }
      forall i, j | 0 <= i < j < |ps| ensures ps[i].id != ps[j].id {
        assert qs[i].id != qs[j].id;
      }
    }
  }

  /** The findings about a registry: none exactly when it is accepted. */
  method VerifyStore(r: Registry) returns (errors: seq<StoreError>)
    ensures errors == [] <==> Accepted(r)
  {
    hide Slug, ProjectsAccepted, ProjectAccepted, Shadows, TargetResolves, DistinctIds, Distinct, StoreSessions,
      AllSessions, Elements;
    errors := [];
    var claimed: set<string>, seen: set<string> := {}, {};
    NothingChecked();
    assert r.projects[..0] == [];
    for i := 0 to |r.projects|
      invariant claimed == set p | p in r.projects[..i] :: p.id
      invariant seen == Elements(StoreSessions(r.projects[..i]))
      invariant errors == [] <==> ProjectsAccepted(r.projects[..i])
      invariant errors == [] ==> Distinct(StoreSessions(r.projects[..i]))
    {
      var p := r.projects[i];
      assert r.projects[..i + 1] == r.projects[..i] + [p];
      AcceptedAppend(r.projects[..i], p);
      StoreSessionsAppend(r.projects[..i], p);
      if !Slug(p.id) || p.id in claimed {
        errors := errors + [InvalidProject(p.id)];
      }
      claimed := claimed + {p.id};
      var found;
      found, seen := CheckProject(p, seen, StoreSessions(r.projects[..i]));
      errors := errors + found;
    }
    assert r.projects[..|r.projects|] == r.projects;
    hide RedirectAccepted, Accepted;
    var keys := r.redirects.Keys;
    ghost var projectsOk := errors == [];
    while keys != {}
      invariant keys <= r.redirects.Keys
      invariant errors == [] <==>
                  projectsOk && forall a :: a in r.redirects.Keys - keys ==> RedirectAccepted(r, a)
      decreases |keys|
    {
      var a :| a in keys;
      RedirectIs(r, a);
      if !Slug(a.p) || Shadows(r.projects, a) {
        errors := errors + [InvalidRedirect(a)];
      }
      if !TargetResolves(r, r.redirects[a]) {
        errors := errors + [TargetNotLive(a)];
      }
      assert r.redirects.Keys - (keys - {a}) == r.redirects.Keys - keys + {a};
      keys := keys - {a};
    }
    AcceptedIs(r);
  }

  lemma NothingChecked()
    ensures ProjectsAccepted([]) && StoreSessions([]) == [] && Distinct<string>([]) && Elements<string>([]) == {}
  {
  }

  lemma RedirectIs(r: Registry, a: Address)
    requires a in r.redirects
    ensures RedirectAccepted(r, a) <==> Slug(a.p) && !Shadows(r.projects, a) && TargetResolves(r, r.redirects[a])
  {
  }

  lemma AcceptedIs(r: Registry)
    ensures Accepted(r) <==>
              ProjectsAccepted(r.projects)
              && forall a :: a in r.redirects.Keys - {} ==> RedirectAccepted(r, a)
  {
  }

  // What acceptance means.

  lemma DenseIffNumbersDense(p: Project)
    requires DistinctNumbers(p.artifacts)
    ensures Dense(p) <==> NumbersDense(p.artifacts) && p.next == Some(|p.artifacts| + 1)
  {
    var xs := p.artifacts;
    var ys := ByNumber(xs);
    ByNumberKeeps(xs);
    Sorting.SortBySorts(NumberKey, xs);
    if NumbersDense(xs) {
      DenseNumbersDiffer(xs);
    }
    if forall x :: x in xs ==> 1 <= x.number <= |xs| {
      AscendingDense(ys);
    }
  }

  /** N different numbers between 1 and N, in ascending order, are 1..N. */
  lemma AscendingDense(ys: seq<Artifact>)
    requires DistinctNumbers(ys) && Sorting.Sorted(NumberKey, ys)
    requires forall y :: y in ys ==> 1 <= y.number <= |ys|
    ensures forall i :: 0 <= i < |ys| ==> ys[i].number == i + 1
  {
    forall i | 0 <= i < |ys| ensures ys[i].number == i + 1 {
      AtLeast(ys, i);
      AtMostFrom(ys, i);
    }
  }

  lemma {:induction false} AtLeast(ys: seq<Artifact>, i: nat)
    requires DistinctNumbers(ys) && Sorting.Sorted(NumberKey, ys) && i < |ys|
    requires forall y :: y in ys ==> 1 <= y.number <= |ys|
    ensures ys[i].number >= i + 1
  {
    assert ys[i] in ys;
    if i > 0 {
      AtLeast(ys, i - 1);
      assert NumberKey(ys[i - 1]).Le(NumberKey(ys[i]));
    }
  }

  lemma {:induction false} AtMostFrom(ys: seq<Artifact>, i: nat)
    requires DistinctNumbers(ys) && Sorting.Sorted(NumberKey, ys) && i < |ys|
    requires forall y :: y in ys ==> 1 <= y.number <= |ys|
    ensures ys[i].number <= i + 1
    decreases |ys| - i
  {
    assert ys[i] in ys;
    if i + 1 < |ys| {
      AtMostFrom(ys, i + 1);
      assert NumberKey(ys[i]).Le(NumberKey(ys[i + 1]));
    }
  }

  // One session makes one artifact.

  lemma DistinctConcat<T>(s: seq<T>, t: seq<T>)
    ensures Distinct(s + t) <==> Distinct(s) && Distinct(t) && forall x :: x in s ==> x !in t
  {
    var u := s + t;
    assert forall i :: 0 <= i < |s| ==> u[i] == s[i];
    assert forall i :: 0 <= i < |t| ==> u[|s| + i] == t[i];
    if Distinct(u) {
      forall i, j | 0 <= i < j < |s| ensures s[i] != s[j] {
        assert u[i] != u[j];
      }
      forall i, j | 0 <= i < j < |t| ensures t[i] != t[j] {
        assert u[|s| + i] != u[|s| + j];
      }
      forall x | x in s ensures x !in t {
        var i :| 0 <= i < |s| && s[i] == x;
        forall j | 0 <= j < |t| ensures t[j] != x {
          assert u[i] != u[|s| + j];
        }
      }
    }
    if Distinct(s) && Distinct(t) && forall x :: x in s ==> x !in t {
      forall i, j | 0 <= i < j < |u| ensures u[i] != u[j] {
        assert u[i] == if i < |s| then s[i] else t[i - |s|];
        assert u[j] == if j < |s| then s[j] else t[j - |s|];
        assert i < |s| ==> s[i] in s;
        assert j >= |s| ==> t[j - |s|] in t;
      }
    }
  }

  lemma {:induction false} SessionMember(xs: seq<Artifact>, s: string)
    ensures s in AllSessions(xs) <==> exists i :: 0 <= i < |xs| && s in xs[i].sessions
  {
    if xs != [] {
      SessionMember(xs[1..], s);
      if i :| 0 <= i < |xs| && s in xs[i].sessions {
        assert i > 0 ==> s in xs[1..][i - 1].sessions;
      }
      if i :| 0 <= i < |xs[1..]| && s in xs[1..][i].sessions {
        assert s in xs[i + 1].sessions;
      }
    }
  }

  lemma {:induction false} StoreSessionMember(ps: seq<Project>, s: string)
    ensures s in StoreSessions(ps) <==> exists i :: 0 <= i < |ps| && s in AllSessions(ps[i].artifacts)
  {
    if ps != [] {
      StoreSessionMember(ps[1..], s);
      if i :| 0 <= i < |ps| && s in AllSessions(ps[i].artifacts) {
        assert i > 0 ==> s in AllSessions(ps[1..][i - 1].artifacts);
      }
      if i :| 0 <= i < |ps[1..]| && s in AllSessions(ps[1..][i].artifacts) {
        assert s in AllSessions(ps[i + 1].artifacts);
      }
    }
  }

  /** No artifact repeats a session, and no two share one. */
  ghost predicate SessionsApart(xs: seq<Artifact>)
  {
    && (forall i :: 0 <= i < |xs| ==> Distinct(xs[i].sessions))
    && forall i, j, s :: 0 <= i < j < |xs| && s in xs[i].sessions ==> s !in xs[j].sessions
  }

  lemma {:induction false} DistinctIffApart(xs: seq<Artifact>)
    ensures Distinct(AllSessions(xs)) <==> SessionsApart(xs)
  {
    if xs != [] {
      DistinctIffApart(xs[1..]);
      DistinctConcat(xs[0].sessions, AllSessions(xs[1..]));
      forall s ensures s in AllSessions(xs[1..]) <==> exists i :: 1 <= i < |xs| && s in xs[i].sessions {
        SessionMember(xs[1..], s);
        if i :| 1 <= i < |xs| && s in xs[i].sessions {
          assert s in xs[1..][i - 1].sessions;
        }
        if i :| 0 <= i < |xs[1..]| && s in xs[1..][i].sessions {
          assert s in xs[i + 1].sessions;
        }
      }
    }
  }

  ghost predicate StoreApart(ps: seq<Project>)
  {
    && (forall i :: 0 <= i < |ps| ==> Distinct(AllSessions(ps[i].artifacts)))
    && forall i, j, s :: 0 <= i < j < |ps| && s in AllSessions(ps[i].artifacts) ==> s !in AllSessions(ps[j].artifacts)
  }

  lemma StoreApartStep(ps: seq<Project>)
    requires ps != []
    ensures StoreApart(ps) <==>
              && Distinct(AllSessions(ps[0].artifacts)) && StoreApart(ps[1..])
              && forall j, s :: 1 <= j < |ps| && s in AllSessions(ps[0].artifacts) ==> s !in AllSessions(ps[j].artifacts)
  {
    hide AllSessions, Distinct;
    assert forall i :: 0 <= i < |ps| - 1 ==> ps[1..][i] == ps[i + 1];
    assert forall i :: 1 <= i < |ps| ==> ps[i] == ps[1..][i - 1];
  }

  lemma {:induction false} DistinctIffStoreApart(ps: seq<Project>)
    ensures Distinct(StoreSessions(ps)) <==> StoreApart(ps)
  {
    if ps != [] {
      hide AllSessions, Distinct, StoreApart;
      DistinctIffStoreApart(ps[1..]);
      DistinctConcat(AllSessions(ps[0].artifacts), StoreSessions(ps[1..]));
      StoreApartStep(ps);
      forall s ensures s in StoreSessions(ps[1..]) <==> exists i :: 1 <= i < |ps| && s in AllSessions(ps[i].artifacts) {
        StoreSessionMember(ps[1..], s);
        if i :| 1 <= i < |ps| && s in AllSessions(ps[i].artifacts) {
          assert s in AllSessions(ps[1..][i - 1].artifacts);
        }
        if i :| 0 <= i < |ps[1..]| && s in AllSessions(ps[1..][i].artifacts) {
          assert s in AllSessions(ps[i + 1].artifacts);
        }
      }
    } else {
      assert Distinct(StoreSessions(ps));
    }
  }

  lemma MakerIndex(ps: seq<Project>, s: string, a: Address) returns (i: nat, j: nat)
    requires WellFormed(ps) && Makes(ps, s, a)
    ensures i < |ps| && j < |ps[i].artifacts| && s in ps[i].artifacts[j].sessions
    ensures a == ArtifactAt(ps[i].id, ps[i].artifacts[j].number)
    ensures s in AllSessions(ps[i].artifacts)
  {
    var p := FindProject(ps, a.p).value;
    i :| 0 <= i < |ps| && ps[i] == p;
    var x := FindArtifact(p.artifacts, a.n).value;
    j :| 0 <= j < |p.artifacts| && p.artifacts[j] == x;
    SessionMember(p.artifacts, s);
  }

  lemma IndexMakes(ps: seq<Project>, s: string, i: nat, j: nat)
    requires WellFormed(ps) && i < |ps| && j < |ps[i].artifacts|
    ensures Lookup(ps, ps[i].id, ps[i].artifacts[j].number) == Some(ps[i].artifacts[j])
    ensures s in ps[i].artifacts[j].sessions ==> Makes(ps, s, ArtifactAt(ps[i].id, ps[i].artifacts[j].number))
  {
  }

  lemma ApartMeansOnce(ps: seq<Project>)
    requires WellFormed(ps) && StoreApart(ps)
    ensures SessionsOnce(ps)
  {
    hide WellFormed, AllSessions, Distinct;
    forall a: Address | a.ArtifactAt? && Lookup(ps, a.p, a.n).Some? ensures Distinct(Lookup(ps, a.p, a.n).value.sessions) {
      var i, j := ArtifactIndex(ps, a);
      DistinctIffApart(ps[i].artifacts);
    }
    forall s, a, b | Makes(ps, s, a) && Makes(ps, s, b) ensures a == b {
      var i, j := MakerIndex(ps, s, a);
      var k, m := MakerIndex(ps, s, b);
      DistinctIffApart(ps[i].artifacts);
    }
  }

  lemma ArtifactIndex(ps: seq<Project>, a: Address) returns (i: nat, j: nat)
    requires a.ArtifactAt? && Lookup(ps, a.p, a.n).Some?
    ensures i < |ps| && j < |ps[i].artifacts| && ps[i].artifacts[j] == Lookup(ps, a.p, a.n).value
  {
    var p := FindProject(ps, a.p).value;
    i :| 0 <= i < |ps| && ps[i] == p;
    j :| 0 <= j < |p.artifacts| && p.artifacts[j] == FindArtifact(p.artifacts, a.n).value;
  }

  lemma OnceMeansApart(ps: seq<Project>)
    requires WellFormed(ps) && SessionsOnce(ps)
    ensures StoreApart(ps)
  {
    forall i | 0 <= i < |ps| ensures Distinct(AllSessions(ps[i].artifacts)) {
      OnceMeansSessionsApart(ps, i);
      DistinctIffApart(ps[i].artifacts);
    }
    forall i, j, s | 0 <= i < j < |ps| && s in AllSessions(ps[i].artifacts) ensures s !in AllSessions(ps[j].artifacts) {
      OnceMeansProjectsApart(ps, i, j, s);
    }
  }

  lemma OnceMeansSessionsApart(ps: seq<Project>, i: nat)
    requires WellFormed(ps) && SessionsOnce(ps) && i < |ps|
    ensures SessionsApart(ps[i].artifacts)
  {
    var xs := ps[i].artifacts;
    hide Distinct, AllSessions;
    forall j | 0 <= j < |xs| ensures Distinct(xs[j].sessions) {
      IndexMakes(ps, "", i, j);
      var a := ArtifactAt(ps[i].id, xs[j].number);
      assert Lookup(ps, a.p, a.n) == Some(xs[j]);
    }
    forall j, k, s | 0 <= j < k < |xs| && s in xs[j].sessions ensures s !in xs[k].sessions {
      IndexMakes(ps, s, i, j);
      IndexMakes(ps, s, i, k);
      assert WellNumbered(ps[i]);
      assert ArtifactAt(ps[i].id, xs[j].number) != ArtifactAt(ps[i].id, xs[k].number);
    }
  }

  lemma OnceMeansProjectsApart(ps: seq<Project>, i: nat, j: nat, s: string)
    requires WellFormed(ps) && SessionsOnce(ps) && i < j < |ps| && s in AllSessions(ps[i].artifacts)
    ensures s !in AllSessions(ps[j].artifacts)
  {
    hide AllSessions;
    SessionMember(ps[i].artifacts, s);
    SessionMember(ps[j].artifacts, s);
    var m :| 0 <= m < |ps[i].artifacts| && s in ps[i].artifacts[m].sessions;
    IndexMakes(ps, s, i, m);
    forall k | 0 <= k < |ps[j].artifacts| ensures s !in ps[j].artifacts[k].sessions {
      IndexMakes(ps, s, j, k);
      assert ArtifactAt(ps[i].id, ps[i].artifacts[m].number) != ArtifactAt(ps[j].id, ps[j].artifacts[k].number);
    }
  }

  /** Project ids, of projects and in redirects, are words joined by hyphens. */
  ghost predicate Slugged(r: Registry)
  {
    (forall p :: p in r.projects ==> Slug(p.id)) && forall a :: a in r.redirects ==> Slug(a.p)
  }

  ghost predicate TargetsResolve(r: Registry)
  {
    forall a :: a in r.redirects ==> TargetResolves(r, r.redirects[a])
  }

  lemma AcceptedShape(r: Registry)
    requires Accepted(r)
    ensures WellFormed(r.projects) && AllDense(r.projects) && SessionsOnce(r.projects)
  {
    forall p | p in r.projects ensures WellNumbered(p) && Dense(p) {
      assert ProjectAccepted(p);
      DenseNumbersDiffer(p.artifacts);
      DenseIffNumbersDense(p);
    }
    DistinctIffStoreApart(r.projects);
    ApartMeansOnce(r.projects);
  }

  lemma InvariantShape(r: Registry)
    requires WellFormed(r.projects) && AllDense(r.projects) && SessionsOnce(r.projects)
    ensures DistinctIds(r.projects) && Distinct(StoreSessions(r.projects))
    ensures forall p :: p in r.projects ==> ProjectAccepted(p)
  {
    forall p | p in r.projects ensures ProjectAccepted(p) {
      assert WellNumbered(p) && Dense(p);
      DenseIffNumbersDense(p);
    }
    OnceMeansApart(r.projects);
    DistinctIffStoreApart(r.projects);
  }

  /** The check accepts exactly the registries with proper ids that are well formed and densely numbered, have one
      artifact to a session, and whose redirects shadow nothing and lead on to live addresses. */
  lemma AcceptedIff(r: Registry)
    ensures Accepted(r) <==>
              && Slugged(r) && WellFormed(r.projects) && AllDense(r.projects) && SessionsOnce(r.projects)
              && Unshadowed(r) && TargetsResolve(r)
  {
    hide Slug, WellFormed, AllDense, SessionsOnce, ProjectAccepted, Distinct, StoreSessions, Shadows, DistinctIds,
      TargetResolves;
    if Accepted(r) {
      AcceptedShape(r);
    }
    if WellFormed(r.projects) && AllDense(r.projects) && SessionsOnce(r.projects) {
      InvariantShape(r);
    }
  }

  /** The invariant that promotions and groupings keep is more than the check asks. */
  lemma InvariantIsAccepted(r: Registry)
    requires StoreInvariant(r) && Slugged(r)
    ensures Accepted(r)
  {
    hide Slug, WellFormed, AllDense, SessionsOnce, RevisionsOnce, TargetResolves;
    forall a | a in r.redirects ensures TargetResolves(r, r.redirects[a]) {
      LiveTargetResolves(r, r.redirects[a]);
    }
    AcceptedIff(r);
  }

  lemma LiveTargetResolves(r: Registry, target: Address)
    requires Unshadowed(r) && Live(r.projects, target)
    ensures TargetResolves(r, target)
  {
    if !target.ProjectAt? {
      LiveResolvesToItself(r, target, |r.redirects| + 1);
    }
  }

  /** In an accepted registry redirects may follow one another, but every retired artifact or version address resolves
      to what the address it redirects to does. */
  lemma AcceptedRedirectsResolve(r: Registry, a: Address)
    requires Accepted(r) && a in r.redirects && !a.ProjectAt? && !r.redirects[a].ProjectAt?
    ensures Resolve(r, a).Ok? && Resolve(r, a) == Resolve(r, r.redirects[a])
  {
    var b, n := r.redirects[a], |r.redirects|;
    assert Hop(r.redirects, a) == Some(b) && TargetResolves(r, b);
    LoopIffNeverEnds(r, b);
    if ResolveWithin(r, b, n) == Err(RedirectLoop) {
      LoopIffNeverEnds(r, a);
      var m: nat :| Walk(r.redirects, b, m).None?;
      WalkShift(r.redirects, a, m);
    }
    OneMoreHop(r, b, n);
  }

  /** A redirect that leads to another one is accepted. */
  function ChainedRegistry(): Registry
  {
    var p := Project("p", "p", Some(2), [Artifact(1, 1, "", [], [Version(1, 1, "", 0)], 1)]);
    Registry([p], map[ArtifactAt("p", 2) := ArtifactAt("p", 3), ArtifactAt("p", 3) := ArtifactAt("p", 1)])
  }

  lemma ChainedIsAccepted()
    ensures Accepted(ChainedRegistry()) && !TargetsLive(ChainedRegistry())
  {
    hide ProjectAccepted, ByNumber;
    var r := ChainedRegistry();
    var p := r.projects[0];
    ChainedProject(p);
    ChainedRedirects(r);
  }

  lemma ChainedProject(p: Project)
    requires p == ChainedRegistry().projects[0]
    ensures ProjectAccepted(p) && StoreSessions([p]) == []
  {
    assert AllSessions(p.artifacts) == [];
    Sorting.SortBySorted(NumberKey, p.artifacts);
  }

  lemma ChainedRedirects(r: Registry)
    requires r == ChainedRegistry()
    ensures forall a :: a in r.redirects ==> RedirectAccepted(r, a)
    ensures !TargetsLive(r)
  {
    var live, middle := ArtifactAt("p", 1), ArtifactAt("p", 3);
    assert Hop(r.redirects, middle) == Some(live) && Hop(r.redirects, live).None?;
    assert ResolveWithin(r, live, 3) == Land(r.projects, live) && ResolveWithin(r, live, 2) == Land(r.projects, live);
    assert r.redirects[ArtifactAt("p", 2)] == middle && Lookup(r.projects, "p", 3).None?;
  }
}

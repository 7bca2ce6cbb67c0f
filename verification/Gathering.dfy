/** The groups of a plan, once resolved, never fold an artifact twice nor move a version twice. */
module Gathering {
  import opened Basics
  import opened Registry
  import opened Resolution
  import opened Merge
  import opened Fold

  /** Within a project every group has its own title. */
  ghost predicate DistinctTitles(groups: seq<Group>)
  {
    forall i, j :: 0 <= i < j < |groups| ==>
      groups[i].project != groups[j].project || groups[i].title != groups[j].title
  }

  ghost predicate DistinctFoldTitles(fs: seq<Fold>)
  {
    forall i, j :: 0 <= i < j < |fs| ==> fs[i].project != fs[j].project || fs[i].title != fs[j].title
  }

  /** What resolution finds is registered. */
  lemma {:induction false} ResolvedIsRegistered(r: Registry, a: Address, hops: nat)
    ensures var found := ResolveWithin(r, a, hops);
            found.Ok? ==>
              var Place(owner, x, k) := found.value;
              Lookup(r.projects, owner.id, x.number) == Some(x) && k <= |x.versions|
    decreases hops
  {
    if hops > 0 {
      match Hop(r.redirects, a)
      case Some(b) => ResolvedIsRegistered(r, b, hops - 1);
      case None =>
    }
  }

  /** The members and picks gathered so far for group `g`, starting from `s0`. */
  ghost predicate GroupOk(ps: seq<Project>, g: Group, s0: Gathered, s: Gathered)
  {
    && DistinctNumbers(s.members)
    && (forall x :: x in s.members ==>
          var a := ArtifactAt(g.project, x.number);
          Lookup(ps, g.project, x.number) == Some(x) && a in s.claimed && s.claimed[a] == g.title)
    && Distinct(s.picked)
    && (forall pick :: pick in s.picked ==>
          var v := VersionAt(g.project, pick.artifact.number, pick.k);
          Lookup(ps, g.project, pick.artifact.number) == Some(pick.artifact) && 1 <= pick.k <= |pick.artifact.versions|
          && v in s.picks && v !in s0.picks)
    && (forall a :: a in s0.claimed ==> a in s.claimed && s.claimed[a] == s0.claimed[a])
    && forall v :: v in s0.picks ==> v in s.picks
  }

  lemma RefKeepsOk(r: Registry, g: Group, s0: Gathered, s: Gathered, ref: Ref)
    requires GroupOk(r.projects, g, s0, s) && GatherRef(r, g, s, ref).Ok?
    ensures GroupOk(r.projects, g, s0, GatherRef(r, g, s, ref).value)
  {
    hide FindProject, FindArtifact, ResolveWithin;
    ResolvedIsRegistered(r, RefAddress(g.project, ref), |r.redirects| + 1);
    if Resolve(r, RefAddress(g.project, ref)).Ok? {
      var place := Resolve(r, RefAddress(g.project, ref)).value;
      var a := ArtifactAt(g.project, place.artifact.number);
      if place.project.id == g.project {
        if place.version > 0 {
          PickKeepsOk(r.projects, g, s0, s, place.artifact, place.version);
        } else if a in s.claimed ==> s.claimed[a] == g.title {
          ClaimKeepsOk(r.projects, g, s0, s, place.artifact);
        }
      }
    }
  }

  lemma PickKeepsOk(ps: seq<Project>, g: Group, s0: Gathered, s: Gathered, x: Artifact, k: nat)
    requires GroupOk(ps, g, s0, s) && VersionAt(g.project, x.number, k) !in s.picks
    requires Lookup(ps, g.project, x.number) == Some(x) && 1 <= k <= |x.versions|
    ensures GroupOk(ps, g, s0, s.(picks := s.picks[VersionAt(g.project, x.number, k) := g.title], picked := s.picked + [Pick(x, k)]))
  {
    hide Lookup;
  }

  lemma ClaimKeepsOk(ps: seq<Project>, g: Group, s0: Gathered, s: Gathered, x: Artifact)
    requires GroupOk(ps, g, s0, s) && Lookup(ps, g.project, x.number) == Some(x)
    requires var a := ArtifactAt(g.project, x.number); a in s.claimed ==> s.claimed[a] == g.title
    ensures GroupOk(ps, g, s0, s.(claimed := s.claimed[ArtifactAt(g.project, x.number) := g.title],
                                  members := if x in s.members then s.members else s.members + [x]))
  {
    hide Lookup;
  }

  lemma {:induction false} RefsKeepOk(r: Registry, g: Group, s0: Gathered, s: Gathered, refs: seq<Ref>)
    requires GroupOk(r.projects, g, s0, s) && GatherRefs(r, g, s, refs).Ok?
    ensures GroupOk(r.projects, g, s0, GatherRefs(r, g, s, refs).value)
    decreases |refs|
  {
    if refs != [] {
      RefKeepsOk(r, g, s0, s, refs[0]);
      RefsKeepOk(r, g, s0, GatherRef(r, g, s, refs[0]).value, refs[1..]);
    }
  }

  /** The claims and picks of a fold are recorded. */
  ghost predicate Recorded(f: Fold, s: Gathered)
  {
    && (forall x :: x in f.members ==>
          var a := ArtifactAt(f.project, x.number);
          a in s.claimed && s.claimed[a] == f.title)
    && forall pick :: pick in f.picked ==> VersionAt(f.project, pick.artifact.number, pick.k) in s.picks
  }

  ghost predicate GatheredOk(ps: seq<Project>, s: Gathered, folds: seq<Fold>)
  {
    && FoldsOk(ps, folds)
    && DistinctFoldTitles(folds)
    && forall f :: f in folds ==> Recorded(f, s)
  }

  /** The fold a group makes. */
  function GroupFold(g: Group, s: Gathered): Fold
  {
    Fold(g.project, g.title, ByNumber(s.members), s.picked)
  }

  lemma GroupFoldOk(ps: seq<Project>, g: Group, s0: Gathered, s: Gathered)
    requires GroupOk(ps, g, s0, s) && s.members != []
    ensures FoldOk(ps, GroupFold(g, s)) && Recorded(GroupFold(g, s), s)
  {
    ByNumberKeeps(s.members);
  }

  /** A new fold is apart from one recorded before it under another title. */
  lemma NewFoldApart(ps: seq<Project>, f: Fold, g: Group, s0: Gathered, s: Gathered)
    requires GroupOk(ps, g, s0, s) && Recorded(f, s0)
    requires f.project != g.project || f.title != g.title
    ensures Apart(f, GroupFold(g, s))
  {
    ByNumberKeeps(s.members);
    forall p, n | Claims(f, p, n)
      ensures ArtifactAt(p, n) in s0.claimed && s0.claimed[ArtifactAt(p, n)] == f.title && p == f.project
    {
      assert f.members[PositionOf(f.members, n)] in f.members;
    }
    forall p, n | Claims(GroupFold(g, s), p, n)
      ensures ArtifactAt(p, n) in s.claimed && s.claimed[ArtifactAt(p, n)] == g.title && p == g.project
    {
      assert ByNumber(s.members)[PositionOf(ByNumber(s.members), n)] in s.members;
    }
    assert forall p, n, k :: Picks(f, p, n, k) ==> VersionAt(p, n, k) in s0.picks;
    assert forall p, n, k :: Picks(GroupFold(g, s), p, n, k) ==> VersionAt(p, n, k) !in s0.picks;
  }

  lemma GroupKeepsOk(r: Registry, g: Group, s0: Gathered, s: Gathered, folds: seq<Fold>)
    requires GatheredOk(r.projects, s0, folds) && GroupOk(r.projects, g, s0, s) && s.members != []
    requires forall f :: f in folds ==> f.project != g.project || f.title != g.title
    ensures GatheredOk(r.projects, s, folds + [GroupFold(g, s)])
  {
    var added := folds + [GroupFold(g, s)];
    GroupFoldOk(r.projects, g, s0, s);
    forall i, j | 0 <= i < j < |added| ensures Apart(added[i], added[j]) {
      if j == |folds| {
        assert added[i] in folds;
        NewFoldApart(r.projects, added[i], g, s0, s);
      }
    }
    forall f | f in folds ensures Recorded(f, s) {
    }
  }

  lemma {:induction false} GroupsKeepOk(r: Registry, s: Gathered, folds: seq<Fold>, groups: seq<Group>)
    requires GatheredOk(r.projects, s, folds) && DistinctTitles(groups)
    requires forall f, g :: f in folds && g in groups ==> f.project != g.project || f.title != g.title
    requires GatherGroups(r, s, folds, groups).Ok?
    ensures FoldsOk(r.projects, GatherGroups(r, s, folds, groups).value)
    ensures DistinctFoldTitles(GatherGroups(r, s, folds, groups).value)
    decreases |groups|
  {
    if groups != [] {
      var g, rest := groups[0], groups[1..];
      if FindProject(r.projects, g.project).None? {
        GroupsKeepOk(r, s, folds, rest);
      } else {
        var s0 := s.(members := [], picked := []);
        var s' := GatherRefs(r, g, s0, g.refs).value;
        RefsKeepOk(r, g, s0, s0, g.refs);
        if s'.members == [] {
          assert folds + [] == folds;
          GroupsKeepOk(r, s', folds, rest);
        } else {
          assert g in groups;
          GroupKeepsOk(r, g, s0, s', folds);
          forall f, h | f in folds + [GroupFold(g, s')] && h in rest
            ensures f.project != h.project || f.title != h.title
          {
            var j :| 0 <= j < |rest| && rest[j] == h;
            assert groups[j + 1] == h;
          }
          GroupsKeepOk(r, s', folds + [GroupFold(g, s')], rest);
        }
      }
    }
  }

  lemma FoldsAreOk(r: Registry, groups: seq<Group>)
    requires DistinctTitles(groups) && Folds(r, groups).Ok?
    ensures FoldsOk(r.projects, Folds(r, groups).value) && DistinctFoldTitles(Folds(r, groups).value)
  {
    GroupsKeepOk(r, Gathered(map[], map[], [], []), [], groups);
  }

  lemma {:induction false} NoErrorAnywhere(fs: seq<Fold>, rest: seq<Fold>)
    requires FirstError(fs, rest).None?
    ensures forall f :: f in rest ==> FoldError(fs, f).None?
  {
    if rest != [] {
      NoErrorAnywhere(fs, rest[1..]);
      assert rest == [rest[0]] + rest[1..];
    }
  }

  lemma OtherPickIsRefused(fs: seq<Fold>, f: Fold, g: Fold, p: string, n: nat, k: nat)
    requires f in fs && g in fs && Claims(f, p, n) && n != Keeper(f) && Picks(g, p, n, k)
    requires FoldError(fs, f).None?
    ensures g.title == f.title && g.project == f.project
  {
    var pick :| pick in g.picked && pick.artifact.number == n && pick.k == k;
    var x := f.members[PositionOf(f.members, n)];
    assert x in f.members && x.number == n;
  }

  /** When no fold is refused, a version of an artifact that is folded away goes where the artifact goes. */
  lemma AcceptedIsFoldable(ps: seq<Project>, fs: seq<Fold>)
    requires FoldsOk(ps, fs) && DistinctFoldTitles(fs) && FirstError(fs, fs).None?
    ensures Foldable(fs)
  {
    NoErrorAnywhere(fs, fs);
    forall f, p, n, k | f in fs && Claims(f, p, n) && n != Keeper(f) && PickingFold(fs, p, n, k).Some?
      ensures PickingFold(fs, p, n, k) == Some(f)
    {
      var g := PickingFold(fs, p, n, k).value;
      OtherPickIsRefused(fs, f, g, p, n, k);
      var i :| 0 <= i < |fs| && fs[i] == f;
      var j :| 0 <= j < |fs| && fs[j] == g;
    }
  }
}

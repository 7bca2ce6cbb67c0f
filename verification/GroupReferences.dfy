/** Which references of a grouping plan make which folds, and which plans are refused for what they list. */
module GroupReferences {
  import opened Basics
  import Sorting
  import opened Registry
  import opened Resolution
  import opened Merge
  import opened Fold
  import opened Gathering

  // What a group lists.

  /** The reference resolves, within the group's project, to version `k` of artifact `n`; 0 is the artifact itself. */
  predicate Leads(r: Registry, g: Group, ref: Ref, n: nat, k: nat)
  {
    var found := Resolve(r, match ref case Number(m) => ArtifactAt(g.project, m) case Named(a) => a);
    found.Ok? && found.value.project.id == g.project && found.value.artifact.number == n && found.value.version == k
  }

  /** One of the first `m` references of the group leads there. */
  ghost predicate ListsBy(r: Registry, g: Group, m: nat, n: nat, k: nat)
    requires m <= |g.refs|
  {
    exists i :: 0 <= i < m && Leads(r, g, g.refs[i], n, k)
  }

  ghost predicate Lists(r: Registry, g: Group, n: nat, k: nat)
  {
    ListsBy(r, g, |g.refs|, n, k)
  }

  /** One of the groups lists it for project `p`. */
  ghost predicate Listed(r: Registry, gs: seq<Group>, p: string, n: nat, k: nat)
  {
    exists i :: 0 <= i < |gs| && gs[i].project == p && Lists(r, gs[i], n, k)
  }

  ghost predicate ListedUnder(r: Registry, gs: seq<Group>, p: string, title: string, n: nat, k: nat)
  {
    exists i :: 0 <= i < |gs| && gs[i].project == p && gs[i].title == title && Lists(r, gs[i], n, k)
  }

  /** The first group to list artifact `n` of `p` has this title. */
  ghost predicate FirstListed(r: Registry, gs: seq<Group>, p: string, title: string, n: nat)
  {
    exists i :: 0 <= i < |gs| && gs[i].project == p && gs[i].title == title && Lists(r, gs[i], n, 0)
                && !Listed(r, gs[..i], p, n, 0)
  }

  ghost predicate ClaimedUnder(fs: seq<Fold>, p: string, title: string, n: nat)
  {
    exists f :: f in fs && f.title == title && Claims(f, p, n)
  }

  ghost predicate PickedUnder(fs: seq<Fold>, p: string, title: string, n: nat, k: nat)
  {
    exists f :: f in fs && f.title == title && Picks(f, p, n, k)
  }

  // One group.

  ghost predicate HasMember(s: Gathered, n: nat)
  {
    exists x :: x in s.members && x.number == n
  }

  ghost predicate HasPick(s: Gathered, n: nat, k: nat)
  {
    exists pick :: pick in s.picked && pick.artifact.number == n && pick.k == k
  }

  ghost predicate MayClaim(g: Group, s0: Gathered, n: nat)
  {
    var a := ArtifactAt(g.project, n); a in s0.claimed ==> s0.claimed[a] == g.title
  }

  /** What the first `m` references of `g` have made of `s0`. */
  ghost predicate InGroup(r: Registry, g: Group, s0: Gathered, s: Gathered, m: nat)
    requires m <= |g.refs|
  {
    && (forall p, n :: ArtifactAt(p, n) in s.claimed <==>
                       ArtifactAt(p, n) in s0.claimed || (p == g.project && ListsBy(r, g, m, n, 0)))
    && (forall p, n :: ArtifactAt(p, n) in s.claimed ==>
          s.claimed[ArtifactAt(p, n)] ==
          if ArtifactAt(p, n) in s0.claimed then s0.claimed[ArtifactAt(p, n)] else g.title)
    && (forall p, n, k: nat :: VersionAt(p, n, k) in s.picks <==>
                               VersionAt(p, n, k) in s0.picks || (p == g.project && k > 0 && ListsBy(r, g, m, n, k)))
    && (forall n :: HasMember(s, n) <==> ListsBy(r, g, m, n, 0) && MayClaim(g, s0, n))
    && forall n, k: nat :: HasPick(s, n, k) <==> k > 0 && ListsBy(r, g, m, n, k)
  }

  /** Reference `m` lists a version that is listed already. */
  ghost predicate Again(r: Registry, g: Group, s0: Gathered, m: nat)
    requires m < |g.refs|
  {
    exists n, k: nat :: k > 0 && Leads(r, g, g.refs[m], n, k)
                        && (VersionAt(g.project, n, k) in s0.picks || ListsBy(r, g, m, n, k))
  }

  lemma OneMoreReference(r: Registry, g: Group, m: nat, n: nat, k: nat)
    requires m < |g.refs|
    ensures ListsBy(r, g, m + 1, n, k) <==> ListsBy(r, g, m, n, k) || Leads(r, g, g.refs[m], n, k)
  {
  }

  lemma OneMoreMember(s: Gathered, s': Gathered, x: Artifact, n: nat)
    requires s'.members == if x in s.members then s.members else s.members + [x]
    ensures HasMember(s', n) <==> HasMember(s, n) || x.number == n
  {
    if HasMember(s, n) {
      var y :| y in s.members && y.number == n;
      assert y in s'.members;
    }
    assert x in s'.members;
  }

  lemma OneMorePick(s: Gathered, s': Gathered, x: Artifact, j: nat, n: nat, k: nat)
    requires s'.picked == s.picked + [Pick(x, j)]
    ensures HasPick(s', n, k) <==> HasPick(s, n, k) || (x.number == n && j == k)
  {
    if HasPick(s, n, k) {
      var y :| y in s.picked && y.artifact.number == n && y.k == k;
      assert y in s'.picked;
    }
    assert Pick(x, j) in s'.picked;
  }

  lemma ReferenceGathers(r: Registry, g: Group, s0: Gathered, s: Gathered, m: nat)
    requires m < |g.refs| && InGroup(r, g, s0, s, m)
    ensures GatherRef(r, g, s, g.refs[m]).Err? <==> Again(r, g, s0, m)
    ensures GatherRef(r, g, s, g.refs[m]).Ok? ==> InGroup(r, g, s0, GatherRef(r, g, s, g.refs[m]).value, m + 1)
  {
    hide Resolve, ListsBy, HasMember, HasPick;
    forall n, k: nat
      ensures ListsBy(r, g, m + 1, n, k) <==> ListsBy(r, g, m, n, k) || Leads(r, g, g.refs[m], n, k)
    {
      OneMoreReference(r, g, m, n, k);
    }
    var step := GatherRef(r, g, s, g.refs[m]);
    var found := Resolve(r, RefAddress(g.project, g.refs[m]));
    if step.Ok? && found.Ok? && found.value.project.id == g.project {
      var x, j := found.value.artifact, found.value.version;
      if j > 0 {
        forall n, k: nat {
          OneMorePick(s, step.value, x, j, n, k);
        }
        forall n {
          SameMembers(s, step.value, n);
        }
      } else if MayClaim(g, s, x.number) {
        forall n: nat {
          OneMoreMember(s, step.value, x, n);
        }
        forall n, k: nat {
          SamePicks(s, step.value, n, k);
        }
      }
    }
  }

  lemma SameMembers(s: Gathered, s': Gathered, n: nat)
    requires s'.members == s.members
    ensures HasMember(s', n) <==> HasMember(s, n)
  {
  }

  lemma SamePicks(s: Gathered, s': Gathered, n: nat, k: nat)
    requires s'.picked == s.picked
    ensures HasPick(s', n, k) <==> HasPick(s, n, k)
  {
  }

  lemma {:induction false} ReferencesGather(r: Registry, g: Group, s0: Gathered, s: Gathered, m: nat)
    requires m <= |g.refs| && InGroup(r, g, s0, s, m)
    ensures GatherRefs(r, g, s, g.refs[m..]).Err? <==> exists i :: m <= i < |g.refs| && Again(r, g, s0, i)
    ensures GatherRefs(r, g, s, g.refs[m..]).Ok? ==>
              InGroup(r, g, s0, GatherRefs(r, g, s, g.refs[m..]).value, |g.refs|)
    decreases |g.refs| - m
  {
    hide InGroup, Again, GatherRef, Resolve;
    if m < |g.refs| {
      ReferenceGathers(r, g, s0, s, m);
      var step := GatherRef(r, g, s, g.refs[m]);
      assert g.refs[m..][0] == g.refs[m] && g.refs[m..][1..] == g.refs[m + 1..];
      if step.Ok? {
        ReferencesGather(r, g, s0, step.value, m + 1);
      }
    }
  }

  // All groups of a plan.

  ghost predicate ClaimsKnown(r: Registry, done: seq<Group>, s: Gathered)
  {
    && (forall p, n :: ArtifactAt(p, n) in s.claimed <==> Listed(r, done, p, n, 0))
    && (forall p, n :: ArtifactAt(p, n) in s.claimed ==> FirstListed(r, done, p, s.claimed[ArtifactAt(p, n)], n))
    && forall p, n, k: nat :: VersionAt(p, n, k) in s.picks <==> k > 0 && Listed(r, done, p, n, k)
  }

  ghost predicate FoldsKnown(r: Registry, done: seq<Group>, fs: seq<Fold>)
  {
    && (forall p, t, n :: ClaimedUnder(fs, p, t, n) <==> FirstListed(r, done, p, t, n))
    && forall p, t, n, k: nat :: PickedUnder(fs, p, t, n, k) <==> k > 0 && ListedUnder(r, done, p, t, n, k)
  }

  lemma OneMoreGroup(r: Registry, gs: seq<Group>, m: nat, p: string, n: nat, k: nat)
    requires m < |gs|
    ensures Listed(r, gs[..m + 1], p, n, k) <==>
            Listed(r, gs[..m], p, n, k) || (gs[m].project == p && Lists(r, gs[m], n, k))
  {
    hide Lists;
    if Listed(r, gs[..m], p, n, k) {
      var i :| 0 <= i < m && gs[..m][i].project == p && Lists(r, gs[..m][i], n, k);
      assert gs[..m + 1][i] == gs[i];
    }
    assert gs[..m + 1][m] == gs[m];
  }

  lemma OneMoreTitled(r: Registry, gs: seq<Group>, m: nat, p: string, t: string, n: nat, k: nat)
    requires m < |gs|
    ensures ListedUnder(r, gs[..m + 1], p, t, n, k) <==>
            ListedUnder(r, gs[..m], p, t, n, k) || (gs[m].project == p && gs[m].title == t && Lists(r, gs[m], n, k))
  {
    hide Lists;
    if ListedUnder(r, gs[..m], p, t, n, k) {
      var i :| 0 <= i < m && gs[..m][i].project == p && gs[..m][i].title == t && Lists(r, gs[..m][i], n, k);
      assert gs[..m + 1][i] == gs[i];
    }
    assert gs[..m + 1][m] == gs[m];
  }

  lemma OneMoreFirst(r: Registry, gs: seq<Group>, m: nat, p: string, t: string, n: nat)
    requires m < |gs|
    ensures FirstListed(r, gs[..m + 1], p, t, n) <==>
            FirstListed(r, gs[..m], p, t, n) ||
            (gs[m].project == p && gs[m].title == t && Lists(r, gs[m], n, 0) && !Listed(r, gs[..m], p, n, 0))
  {
    hide Lists, Listed;
    forall i | 0 <= i < m ensures gs[..m + 1][i] == gs[..m][i] && gs[..m + 1][..i] == gs[..m][..i] {
    }
    assert gs[..m + 1][m] == gs[m] && gs[..m + 1][..m] == gs[..m];
    if FirstListed(r, gs[..m], p, t, n) {
      var i :| 0 <= i < m && gs[..m][i].project == p && gs[..m][i].title == t && Lists(r, gs[..m][i], n, 0)
               && !Listed(r, gs[..m][..i], p, n, 0);
      assert gs[..m + 1][i].project == p;
    }
  }

  /** Some group that lists the artifact was the first to. */
  lemma FirstIsListed(r: Registry, gs: seq<Group>, p: string, t: string, n: nat)
    requires FirstListed(r, gs, p, t, n)
    ensures Listed(r, gs, p, n, 0) && ListedUnder(r, gs, p, t, n, 0)
  {
  }

  /** The plan lists a version twice, the second time in its group `m`. */
  ghost predicate ListsAgain(r: Registry, gs: seq<Group>, m: nat)
    requires m < |gs|
  {
    exists i, n, k: nat :: 0 <= i < |gs[m].refs| && k > 0 && Leads(r, gs[m], gs[m].refs[i], n, k)
                           && (Listed(r, gs[..m], gs[m].project, n, k) || ListsBy(r, gs[m], i, n, k))
  }

  /** Group `m` lists versions, but no artifact that no group before it lists. */
  ghost predicate ListsNoHome(r: Registry, gs: seq<Group>, m: nat)
    requires m < |gs|
  {
    && (exists n, k: nat :: k > 0 && Lists(r, gs[m], n, k))
    && forall n :: Lists(r, gs[m], n, 0) ==> Listed(r, gs[..m], gs[m].project, n, 0)
  }

  lemma StartsInGroup(r: Registry, g: Group, s: Gathered)
    requires s.members == [] && s.picked == []
    ensures InGroup(r, g, s, s, 0)
  {
  }

  lemma NobodyLeads(r: Registry, g: Group, n: nat, k: nat)
    requires FindProject(r.projects, g.project).None?
    ensures !Lists(r, g, n, k)
  {
    forall i | 0 <= i < |g.refs| ensures !Leads(r, g, g.refs[i], n, k) {
      ResolvedIsRegistered(r, RefAddress(g.project, g.refs[i]), |r.redirects| + 1);
    }
  }

  /** Where a fold comes from the references of one group. */
  lemma FoldOfGroup(g: Group, s: Gathered, p: string, t: string, n: nat, k: nat)
    ensures ClaimedUnder([GroupFold(g, s)], p, t, n) <==> p == g.project && t == g.title && HasMember(s, n)
    ensures PickedUnder([GroupFold(g, s)], p, t, n, k) <==> p == g.project && t == g.title && HasPick(s, n, k)
  {
    var f := GroupFold(g, s);
    Sorting.SortByPermutes(NumberKey, s.members);
    PermutationMembers(s.members, f.members);
    assert Claims(f, p, n) <==> p == g.project && HasMember(s, n) by {
      if HasMember(s, n) {
        var x :| x in s.members && x.number == n;
        assert x in f.members;
      }
      if Claims(f, p, n) {
        assert f.members[PositionOf(f.members, n)] in s.members;
      }
    }
    assert f in [f];
  }

  lemma MoreFolds(fs: seq<Fold>, gs: seq<Fold>, p: string, t: string, n: nat, k: nat)
    ensures ClaimedUnder(fs + gs, p, t, n) <==> ClaimedUnder(fs, p, t, n) || ClaimedUnder(gs, p, t, n)
    ensures PickedUnder(fs + gs, p, t, n, k) <==> PickedUnder(fs, p, t, n, k) || PickedUnder(gs, p, t, n, k)
  {
    hide Claims, Picks;
    assert forall f :: f in fs + gs <==> f in fs || f in gs;
  }

  /** What the references of a group of the plan give, in terms of the groups before it. */
  ghost predicate GroupKnown(r: Registry, gs: seq<Group>, m: nat, s0: Gathered, s: Gathered)
    requires m < |gs|
  {
    && ClaimsKnown(r, gs[..m + 1], s)
    && (forall n :: HasMember(s, n) <==> Lists(r, gs[m], n, 0) && !Listed(r, gs[..m], gs[m].project, n, 0))
    && forall n, k: nat :: HasPick(s, n, k) <==> k > 0 && Lists(r, gs[m], n, k)
  }

  lemma TitlesApart(r: Registry, gs: seq<Group>, m: nat, n: nat)
    requires m < |gs| && DistinctTitles(gs)
    ensures !FirstListed(r, gs[..m], gs[m].project, gs[m].title, n)
  {
    hide Lists, Listed;
  }

  lemma GroupGathers(r: Registry, gs: seq<Group>, m: nat, s: Gathered)
    requires m < |gs| && DistinctTitles(gs) && ClaimsKnown(r, gs[..m], s) && s.members == [] && s.picked == []
    ensures GatherRefs(r, gs[m], s, gs[m].refs).Err? <==> ListsAgain(r, gs, m)
    ensures GatherRefs(r, gs[m], s, gs[m].refs).Ok? ==> GroupKnown(r, gs, m, s, GatherRefs(r, gs[m], s, gs[m].refs).value)
  {
    hide GatherRefs, ListsBy, Leads, Lists, Listed, FirstListed, InGroup, HasMember, HasPick;
    var g := gs[m];
    assert g.refs[0..] == g.refs;
    StartsInGroup(r, g, s);
    ReferencesGather(r, g, s, s, 0);
    AgainIs(r, gs, m, s);
    if GatherRefs(r, g, s, g.refs).Ok? {
      KnownAfter(r, gs, m, s, GatherRefs(r, g, s, g.refs).value);
    }
  }

  lemma AgainIs(r: Registry, gs: seq<Group>, m: nat, s: Gathered)
    requires m < |gs| && ClaimsKnown(r, gs[..m], s)
    ensures (exists i :: 0 <= i < |gs[m].refs| && Again(r, gs[m], s, i)) <==> ListsAgain(r, gs, m)
  {
    hide ListsBy, Leads, Listed;
    forall i | 0 <= i < |gs[m].refs|
      ensures Again(r, gs[m], s, i) <==>
              exists n, k: nat :: k > 0 && Leads(r, gs[m], gs[m].refs[i], n, k)
                                  && (Listed(r, gs[..m], gs[m].project, n, k) || ListsBy(r, gs[m], i, n, k))
    {
    }
  }

  lemma KnownAfter(r: Registry, gs: seq<Group>, m: nat, s0: Gathered, s: Gathered)
    requires m < |gs| && DistinctTitles(gs) && ClaimsKnown(r, gs[..m], s0)
    requires InGroup(r, gs[m], s0, s, |gs[m].refs|)
    ensures GroupKnown(r, gs, m, s0, s)
  {
    var g := gs[m];
    forall p, n ensures ArtifactAt(p, n) in s.claimed <==> Listed(r, gs[..m + 1], p, n, 0) {
      OneMoreGroup(r, gs, m, p, n, 0);
    }
    forall p, n | ArtifactAt(p, n) in s.claimed ensures FirstListed(r, gs[..m + 1], p, s.claimed[ArtifactAt(p, n)], n) {
      OneMoreFirst(r, gs, m, p, s.claimed[ArtifactAt(p, n)], n);
    }
    forall p, n, k: nat ensures VersionAt(p, n, k) in s.picks <==> k > 0 && Listed(r, gs[..m + 1], p, n, k) {
      OneMoreGroup(r, gs, m, p, n, k);
    }
    forall n ensures MayClaim(g, s0, n) <==> !Listed(r, gs[..m], g.project, n, 0) {
      TitlesApart(r, gs, m, n);
    }
  }

  /** The folds after group `m`, which adds its own if it has a member. */
  lemma FoldsAfter(r: Registry, gs: seq<Group>, m: nat, s0: Gathered, s: Gathered, fs: seq<Fold>)
    requires m < |gs| && FoldsKnown(r, gs[..m], fs) && GroupKnown(r, gs, m, s0, s)
    requires s.members == [] ==> s.picked == []
    ensures FoldsKnown(r, gs[..m + 1], fs + if s.members == [] then [] else [GroupFold(gs[m], s)])
  {
    hide ClaimsKnown, Listed, ListedUnder, FirstListed, Lists, ClaimedUnder, PickedUnder, HasMember, HasPick, GroupFold;
    var added := if s.members == [] then [] else [GroupFold(gs[m], s)];
    forall p, t, n ensures ClaimedUnder(fs + added, p, t, n) <==> FirstListed(r, gs[..m + 1], p, t, n) {
      MoreFolds(fs, added, p, t, n, 0);
      FoldOfGroup(gs[m], s, p, t, n, 0);
      EmptyFolds(p, t, n, 0);
      EmptyGroup(s, n, 0);
      OneMoreFirst(r, gs, m, p, t, n);
    }
    forall p, t, n, k: nat
      ensures PickedUnder(fs + added, p, t, n, k) <==> k > 0 && ListedUnder(r, gs[..m + 1], p, t, n, k)
    {
      MoreFolds(fs, added, p, t, n, k);
      FoldOfGroup(gs[m], s, p, t, n, k);
      EmptyFolds(p, t, n, k);
      EmptyGroup(s, n, k);
      OneMoreTitled(r, gs, m, p, t, n, k);
    }
  }

  lemma EmptyFolds(p: string, t: string, n: nat, k: nat)
    ensures !ClaimedUnder([], p, t, n) && !PickedUnder([], p, t, n, k)
  {
  }

  lemma EmptyGroup(s: Gathered, n: nat, k: nat)
    ensures s.members == [] ==> !HasMember(s, n)
    ensures s.picked == [] ==> !HasPick(s, n, k)
  {
  }

  lemma HomelessIs(r: Registry, gs: seq<Group>, m: nat, s0: Gathered, s: Gathered)
    requires m < |gs| && GroupKnown(r, gs, m, s0, s)
    ensures s.picked != [] && s.members == [] <==> ListsNoHome(r, gs, m)
  {
    hide ClaimsKnown, Listed, Lists;
    if s.picked != [] {
      assert HasPick(s, s.picked[0].artifact.number, s.picked[0].k);
    }
    if s.members != [] {
      assert HasMember(s, s.members[0].number);
    }
  }

  /** A group for a project that is not there lists nothing. */
  lemma NoProjectNothing(r: Registry, gs: seq<Group>, m: nat, s: Gathered, fs: seq<Fold>)
    requires m < |gs| && FindProject(r.projects, gs[m].project).None?
    requires ClaimsKnown(r, gs[..m], s) && FoldsKnown(r, gs[..m], fs)
    ensures ClaimsKnown(r, gs[..m + 1], s) && FoldsKnown(r, gs[..m + 1], fs)
    ensures !ListsAgain(r, gs, m) && !ListsNoHome(r, gs, m)
  {
    hide Listed, ListedUnder, FirstListed, Lists, Leads, ClaimedUnder, PickedUnder;
    forall n, k: nat ensures !Lists(r, gs[m], n, k) {
      NobodyLeads(r, gs[m], n, k);
    }
    forall p, n, k: nat ensures Listed(r, gs[..m + 1], p, n, k) == Listed(r, gs[..m], p, n, k) {
      OneMoreGroup(r, gs, m, p, n, k);
    }
    forall p, t, n, k: nat ensures ListedUnder(r, gs[..m + 1], p, t, n, k) == ListedUnder(r, gs[..m], p, t, n, k) {
      OneMoreTitled(r, gs, m, p, t, n, k);
    }
    forall p, t, n ensures FirstListed(r, gs[..m + 1], p, t, n) == FirstListed(r, gs[..m], p, t, n) {
      OneMoreFirst(r, gs, m, p, t, n);
    }
    forall i, n, k: nat | 0 <= i < |gs[m].refs| ensures !Leads(r, gs[m], gs[m].refs[i], n, k) {
      if Leads(r, gs[m], gs[m].refs[i], n, k) {
        LeadsLists(r, gs[m], i, n, k);
      }
    }
  }

  lemma LeadsLists(r: Registry, g: Group, i: nat, n: nat, k: nat)
    requires i < |g.refs| && Leads(r, g, g.refs[i], n, k)
    ensures Lists(r, g, n, k)
  {
  }

  ghost predicate Refused(r: Registry, gs: seq<Group>, m: nat)
    requires m < |gs|
  {
    ListsAgain(r, gs, m) || ListsNoHome(r, gs, m)
  }

  lemma {:induction false} GroupsGather(r: Registry, gs: seq<Group>, m: nat, s: Gathered, fs: seq<Fold>)
    requires m <= |gs| && DistinctTitles(gs) && ClaimsKnown(r, gs[..m], s) && FoldsKnown(r, gs[..m], fs)
    ensures GatherGroups(r, s, fs, gs[m..]).Err? <==> exists i :: m <= i < |gs| && Refused(r, gs, i)
    ensures GatherGroups(r, s, fs, gs[m..]).Ok? ==> FoldsKnown(r, gs, GatherGroups(r, s, fs, gs[m..]).value)
    decreases |gs| - m
  {
    hide ClaimsKnown, FoldsKnown, GroupKnown, ListsAgain, ListsNoHome, DistinctTitles, GatherRefs, GroupFold;
    if m == |gs| {
      assert gs[..m] == gs;
    } else {
      var g := gs[m];
      assert gs[m..][0] == g && gs[m..][1..] == gs[m + 1..];
      if FindProject(r.projects, g.project).None? {
        NoProjectNothing(r, gs, m, s, fs);
        GroupsGather(r, gs, m + 1, s, fs);
      } else {
        var s0 := s.(members := [], picked := []);
        SameClaims(r, gs[..m], s, s0);
        GroupGathers(r, gs, m, s0);
        var gathered := GatherRefs(r, g, s0, g.refs);
        if gathered.Err? {
          assert Refused(r, gs, m);
        } else {
          var s' := gathered.value;
          HomelessIs(r, gs, m, s0, s');
          if ListsNoHome(r, gs, m) {
            assert Refused(r, gs, m);
          } else {
            FoldsAfter(r, gs, m, s0, s', fs);
            GroupClaims(r, gs, m, s0, s');
            NamesGroupFold(g, s');
            GroupsGather(r, gs, m + 1, s', fs + if s'.members == [] then [] else [GroupFold(g, s')]);
          }
        }
      }
    }
  }

  lemma NamesGroupFold(g: Group, s: Gathered)
    ensures GroupFold(g, s) == Fold(g.project, g.title, ByNumber(s.members), s.picked)
  {
  }

  lemma SameClaims(r: Registry, done: seq<Group>, s: Gathered, s0: Gathered)
    requires ClaimsKnown(r, done, s) && s0.claimed == s.claimed && s0.picks == s.picks
    ensures ClaimsKnown(r, done, s0)
  {
  }

  lemma GroupClaims(r: Registry, gs: seq<Group>, m: nat, s0: Gathered, s: Gathered)
    requires m < |gs| && GroupKnown(r, gs, m, s0, s)
    ensures ClaimsKnown(r, gs[..m + 1], s)
  {
  }

  /** An artifact is folded into the group that is the first to list it, and a version goes to the group that lists it. */
  lemma FoldsAreListed(r: Registry, gs: seq<Group>, p: string, title: string, n: nat, k: nat)
    requires DistinctTitles(gs) && Folds(r, gs).Ok?
    ensures ClaimedUnder(Folds(r, gs).value, p, title, n) <==> FirstListed(r, gs, p, title, n)
    ensures PickedUnder(Folds(r, gs).value, p, title, n, k) <==> k > 0 && ListedUnder(r, gs, p, title, n, k)
  {
    assert gs[0..] == gs;
    NothingListed(r);
    GroupsGather(r, gs, 0, Gathered(map[], map[], [], []), []);
  }

  lemma NothingListed(r: Registry)
    ensures ClaimsKnown(r, [], Gathered(map[], map[], [], [])) && FoldsKnown(r, [], [])
  {
  }

  /** A plan's groups are refused exactly when one of them lists a version that is listed already, or lists versions
      and no artifact of its own. */
  lemma GroupsRefusedIff(r: Registry, gs: seq<Group>)
    requires DistinctTitles(gs)
    ensures Folds(r, gs).Err? <==> exists m :: 0 <= m < |gs| && (ListsAgain(r, gs, m) || ListsNoHome(r, gs, m))
  {
    assert gs[0..] == gs;
    NothingListed(r);
    hide ListsAgain, ListsNoHome;
    GroupsGather(r, gs, 0, Gathered(map[], map[], [], []), []);
    assert forall m :: 0 <= m < |gs| ==> (Refused(r, gs, m) <==> ListsAgain(r, gs, m) || ListsNoHome(r, gs, m));
  }
}

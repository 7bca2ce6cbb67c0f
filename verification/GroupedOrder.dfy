/** The order that a grouping plan puts versions and artifacts in. */
module GroupedOrder {
  import opened Basics
  import opened Sorting
  import opened Registry
  import opened AddressMaps
  import opened Densify
  import opened Merge
  import opened Fold
  import opened FoldAddresses
  import opened Grouping

  // The versions of one rebuilt artifact.

  /** The group lists version `a` itself, or its artifact when no group lists the version. */
  ghost predicate GoesTo(fs: seq<Fold>, f: Fold, a: Address)
  {
    a.VersionAt? && a.p == f.project && RowIn(fs, f, a.n, a.k)
  }

  lemma TargetInKeeper(ps: seq<Project>, fs: seq<Fold>, f: Fold, a: Address)
    requires WellFormed(ps) && FoldsOk(ps, fs) && !TitleOnly(fs, f) && IsVersion(ps, a) && GoesTo(fs, f, a)
    ensures FoldTarget(ps, fs, a) == VersionAt(f.project, Keeper(f), RowPlace(Ordered(fs, f), a.n, a.k) + 1)
  {
    hide FoldsOk, WellFormed, Ordered, Claims, Picks;
    if Picks(f, f.project, a.n, a.k) {
      Picker(ps, fs, f, f.project, a.n, a.k);
    } else {
      Claimer(ps, fs, f, f.project, a.n);
    }
  }

  /** A version's place in its fold is settled by its date, then by the numbers it had. */
  lemma RowsByDate(ps: seq<Project>, fs: seq<Fold>, f: Fold, a: Address, b: Address)
    requires WellFormed(ps) && FoldsOk(ps, fs)
    requires IsVersion(ps, a) && IsVersion(ps, b) && GoesTo(fs, f, a) && GoesTo(fs, f, b)
    ensures var c, d := At(ps, a).value.date, At(ps, b).value.date;
            RowPlace(Ordered(fs, f), a.n, a.k) < RowPlace(Ordered(fs, f), b.n, b.k)
            <==> c < d || (c == d && (a.n < b.n || (a.n == b.n && a.k < b.k)))
  {
    hide FoldsOk, WellFormed, Ordered, Claims, Picks;
    RowPlaced(ps, fs, f, a.n, a.k);
    RowPlaced(ps, fs, f, b.n, b.k);
    RebuiltInDateOrder(fs, f);
    var rows := Ordered(fs, f);
    var i, j := RowPlace(rows, a.n, a.k), RowPlace(rows, b.n, b.k);
    if i < j {
      assert RowKey(rows[i]).Le(RowKey(rows[j]));
    } else if j < i {
      assert RowKey(rows[j]).Le(RowKey(rows[i]));
    }
  }

  // Through all stages.

  predicate OfOneArtifact(x: Address, y: Address)
  {
    x.VersionAt? && y.VersionAt? && x.p == y.p && x.n == y.n
  }

  /** Where the merges of a plan take `a`. */
  function MergedTo(r: Registry, plan: Plan, a: Address): Address
    requires Grouped(r, plan).Ok?
  {
    Follow(DraftOf(r, plan).mapping, a)
  }

  /** Where the plan takes `a`, as the mapping it returns says. */
  function NowAt(r: Registry, plan: Plan, a: Address): Address
    requires Grouped(r, plan).Ok?
  {
    Follow(Grouped(r, plan).value.mapping, a)
  }

  /** What the stages make of the thing at `a`: where it is after the merges, after the folds, and in the end. */
  lemma Stages(r: Registry, plan: Plan, a: Address)
    requires Plannable(r, plan) && Grouped(r, plan).Ok? && Live(r.projects, a)
    ensures var ps, fs := DraftOf(r, plan).projects, FoldsOf(r, plan);
            var merged := MergedTo(r, plan, a);
            && WellFormed(ps) && FoldsOk(ps, fs) && Foldable(fs) && WellFormed(Folded(ps, fs))
            && At(ps, merged) == At(r.projects, a)
            && Live(Folded(ps, fs), FoldTarget(ps, fs, merged))
            && Grouped(r, plan).value.registry.projects == DenseProjects(Folded(ps, fs))
            && NowAt(r, plan, a) == Follow(DenseMoves(Folded(ps, fs)), FoldTarget(ps, fs, merged))
  {
    hide Grouped, Plannable, DraftOf, FoldsOf, Finished, DraftGood, WellFormed, FoldsOk, Foldable, Folded, FoldMoves, FoldTarget;
    hide DenseMoves, DenseProjects, Covers, EndsLive, Sound, At;
    var d, fs := DraftOf(r, plan), FoldsOf(r, plan);
    StagesHold(r, plan);
    StrictlyCarried(r.projects, d.mapping, d.projects, a);
    var merged := Follow(d.mapping, a);
    FoldCarries(d.projects, fs);
    FoldedWellFormed(d.projects, fs);
    FoldMovesFollow(d.projects, fs, merged);
    FinishedFollows(r, d, fs, a);
    FinishedParts(r, d, fs);
  }

  /** Renumbering keeps versions of one artifact together and in place, and those of two apart. */
  lemma DenseKeepsPlaces(ps: seq<Project>, b: Address, c: Address)
    requires WellFormed(ps) && IsVersion(ps, b) && IsVersion(ps, c)
    ensures var x, y := Follow(DenseMoves(ps), b), Follow(DenseMoves(ps), c);
            && x.VersionAt? && x.p == b.p && x.k == b.k && y.VersionAt? && y.p == c.p && y.k == c.k
            && (x.p == y.p && x.n == y.n <==> b.p == c.p && b.n == c.n)
  {
    DenseLookup(ps, b.p, b.n);
    DenseLookup(ps, c.p, c.n);
    if b.p == c.p {
      var p := FindProject(ps, b.p).value;
      assert WellNumbered(p);
      FindDense(p, b.n);
      FindDense(p, c.n);
    }
  }

  /** The versions of an artifact that a group rebuilds come to it and are numbered by date; of equal dates the one
      whose artifact had the smaller number after the merges is first, and of one artifact's the one with the smaller
      version number. */
  lemma FoldedVersionsByDate(r: Registry, plan: Plan, f: Fold, a: Address, b: Address)
    requires Plannable(r, plan) && Grouped(r, plan).Ok?
    requires f in FoldsOf(r, plan) && !TitleOnly(FoldsOf(r, plan), f)
    requires IsVersion(r.projects, a) && IsVersion(r.projects, b)
    requires GoesTo(FoldsOf(r, plan), f, MergedTo(r, plan, a)) && GoesTo(FoldsOf(r, plan), f, MergedTo(r, plan, b))
    ensures var ps, x, y := Grouped(r, plan).value.registry.projects, NowAt(r, plan, a), NowAt(r, plan, b);
            var m, n := MergedTo(r, plan, a), MergedTo(r, plan, b);
            var c, d := At(r.projects, a).value.date, At(r.projects, b).value.date;
            && IsVersion(ps, x) && IsVersion(ps, y) && OfOneArtifact(x, y)
            && (x.k < y.k <==> c < d || (c == d && (m.n < n.n || (m.n == n.n && m.k < n.k))))
  {
    hide Grouped, Plannable, DraftOf, FoldsOf, WellFormed, FoldsOk, Foldable, Folded, FoldTarget, DenseMoves, DenseProjects;
    hide TitleOnly, RowIn, Lookup, Ordered;
    var ps, fs := DraftOf(r, plan).projects, FoldsOf(r, plan);
    var m, n := MergedTo(r, plan, a), MergedTo(r, plan, b);
    Stages(r, plan, a);
    Stages(r, plan, b);
    TargetInKeeper(ps, fs, f, m);
    TargetInKeeper(ps, fs, f, n);
    RowsByDate(ps, fs, f, m, n);
    DenseKeepsPlaces(Folded(ps, fs), FoldTarget(ps, fs, m), FoldTarget(ps, fs, n));
    DenseCarries(Folded(ps, fs));
  }

  /** What else the folds take to a rebuilt artifact: nothing. */
  lemma TargetInKeeperOnly(ps: seq<Project>, fs: seq<Fold>, f: Fold, a: Address)
    requires WellFormed(ps) && FoldsOk(ps, fs) && f in fs && !TitleOnly(fs, f) && IsVersion(ps, a)
    requires FoldTarget(ps, fs, a).p == f.project && FoldTarget(ps, fs, a).n == Keeper(f)
    ensures GoesTo(fs, f, a)
  {
    KeeperClaims(ps, fs, f, f);
    hide FoldsOk, WellFormed, Ordered, Unpicked;
    match PickingFold(fs, a.p, a.n, a.k)
    case Some(g) => SameKeeper(ps, fs, f, g);
    case None =>
      match ClaimingFold(fs, a.p, a.n)
      case Some(g) =>
        if TitleOnly(fs, g) {
          UntouchedTarget(ps, fs, g, a);
        } else {
          SameKeeper(ps, fs, f, g);
        }
      case None =>
  }

  lemma KeeperClaims(ps: seq<Project>, fs: seq<Fold>, f: Fold, g: Fold)
    requires FoldsOk(ps, fs) && f in fs && g in fs
    ensures f.members != [] && ClaimingFold(fs, f.project, Keeper(f)) == Some(f)
  {
    assert FoldOk(ps, f) && f.members[0] in f.members;
    assert PositionOf(f.members, f.members[0].number) == 0;
    Claimer(ps, fs, f, f.project, Keeper(f));
  }

  /** No two folds keep one artifact. */
  lemma SameKeeper(ps: seq<Project>, fs: seq<Fold>, f: Fold, g: Fold)
    requires FoldsOk(ps, fs) && f in fs && g in fs && f.project == g.project && Keeper(f) == Keeper(g)
    ensures f == g
  {
    KeeperClaims(ps, fs, f, g);
    KeeperClaims(ps, fs, g, f);
  }

  lemma TargetKeepsKind(ps: seq<Project>, fs: seq<Fold>, a: Address)
    ensures FoldTarget(ps, fs, a).p == a.p && FoldTarget(ps, fs, a).VersionAt? == a.VersionAt?
    ensures FoldTarget(ps, fs, a).ArtifactAt? == a.ArtifactAt?
  {
  }

  /** A rebuilt artifact has exactly the versions that go to its group, and the last of them is current. */
  lemma FoldedVersionsAreTheGroups(r: Registry, plan: Plan, f: Fold, a: Address, b: Address)
    requires Plannable(r, plan) && Grouped(r, plan).Ok?
    requires f in FoldsOf(r, plan) && !TitleOnly(FoldsOf(r, plan), f)
    requires IsVersion(r.projects, a) && IsVersion(r.projects, b)
    requires GoesTo(FoldsOf(r, plan), f, MergedTo(r, plan, a))
    ensures OfOneArtifact(NowAt(r, plan, a), NowAt(r, plan, b)) <==> GoesTo(FoldsOf(r, plan), f, MergedTo(r, plan, b))
    ensures var x := NowAt(r, plan, a);
            x.VersionAt? && IsRebuilt(Lookup(Grouped(r, plan).value.registry.projects, x.p, x.n), f)
  {
    hide Grouped, Plannable, DraftOf, FoldsOf, WellFormed, FoldsOk, Foldable, Folded, FoldTarget, DenseMoves, DenseProjects;
    hide TitleOnly, RowIn, Lookup, Ordered, DenseNumber;
    var ps, fs := DraftOf(r, plan).projects, FoldsOf(r, plan);
    var m, n := MergedTo(r, plan, a), MergedTo(r, plan, b);
    Stages(r, plan, a);
    Stages(r, plan, b);
    TargetInKeeper(ps, fs, f, m);
    TargetKeepsKind(ps, fs, n);
    DenseKeepsPlaces(Folded(ps, fs), FoldTarget(ps, fs, m), FoldTarget(ps, fs, n));
    var moved := FoldTarget(ps, fs, n);
    if moved.p == f.project && moved.n == Keeper(f) {
      TargetInKeeperOnly(ps, fs, f, n);
    } else if GoesTo(fs, f, n) {
      TargetInKeeper(ps, fs, f, n);
    }
    KeeperFinished(ps, fs, f);
    DenseFollows(Folded(ps, fs), FoldTarget(ps, fs, m));
  }

  /** The artifact has the group's title and its members' sessions, and its last version is current. */
  predicate IsRebuilt(found: Option<Artifact>, f: Fold)
  {
    && found.Some? && found.value.title == f.title && found.value.sessions == AllSessions(f.members)
    && found.value.current == |found.value.versions|
  }

  lemma KeeperFinished(ps: seq<Project>, fs: seq<Fold>, f: Fold)
    requires WellFormed(ps) && FoldsOk(ps, fs) && f in fs && !TitleOnly(fs, f)
    requires WellFormed(Folded(ps, fs))
    ensures var n := DenseNumber(Folded(ps, fs), f.project, Keeper(f));
            IsRebuilt(Lookup(DenseProjects(Folded(ps, fs)), f.project, n), f)
  {
    KeeperRebuilt(ps, fs, f);
    KeeperClaims(ps, fs, f, f);
    hide WellFormed, FoldsOk, Ordered;
    FoldedLookup(ps, fs, f.project, Keeper(f));
    DenseLookup(Folded(ps, fs), f.project, Keeper(f));
  }

  lemma DenseFollows(ps: seq<Project>, b: Address)
    requires Live(ps, b)
    ensures Follow(DenseMoves(ps), b) == DenseTarget(ps, b)
  {
  }

  // Artifacts that are not rebuilt.

  ghost predicate Ascending(rows: seq<Row>)
  {
    forall i, j :: 0 <= i < j < |rows| ==> rows[i].k < rows[j].k
  }

  lemma {:induction false} FilteredAscend(g: Version -> Option<Row>, vs: seq<Version>)
    requires forall i, j :: 0 <= i < j < |vs| ==> vs[i].number < vs[j].number
    requires forall v :: v in vs && g(v).Some? ==> g(v).value.k == v.number
    ensures Ascending(FilterMap(g, vs))
  {
    if vs != [] {
      FilteredAscend(g, vs[1..]);
      FilterMembers(g, vs[1..]);
      var rest := FilterMap(g, vs[1..]);
      forall j | 0 <= j < |rest| ensures vs[0].number < rest[j].k {
        assert rest[j] in rest;
        var v :| v in vs[1..] && g(v) == Some(rest[j]);
        var i :| 0 <= i < |vs[1..]| && vs[1..][i] == v;
        assert vs[i + 1] == v;
      }
      var rows := FilterMap(g, vs);
      assert vs[0] in vs && rows == (if g(vs[0]).Some? then [g(vs[0]).value] else []) + rest;
      if g(vs[0]).Some? {
        forall i, j | 0 <= i < j < |rows| ensures rows[i].k < rows[j].k {
          assert rows[j] == rest[j - 1] && (i > 0 ==> rows[i] == rest[i - 1]);
        }
      } else {
        assert rows == rest;
      }
    }
  }

  /** What other groups leave of an artifact stays in order. */
  lemma RestInOrder(fs: seq<Fold>, p: string, x: Artifact, k: nat, l: nat)
    requires WellVersioned(x) && 1 <= k <= |x.versions| && 1 <= l <= |x.versions|
    requires PickingFold(fs, p, x.number, k).None? && PickingFold(fs, p, x.number, l).None?
    ensures var rows := Unpicked(fs, p, x);
            RowPlace(rows, x.number, k) < RowPlace(rows, x.number, l) <==> k < l
  {
    RestPlaced(fs, p, x, k);
    RestPlaced(fs, p, x, l);
    FilteredAscend((v: Version) =>
      if PickingFold(fs, p, x.number, v.number).Some? then None else Some(Row(x.number, v.number, v)), x.versions);
    var rows := Unpicked(fs, p, x);
    var i, j := RowPlace(rows, x.number, k), RowPlace(rows, x.number, l);
    assert rows[i].k == k && rows[j].k == l;
    if i < j {
      assert rows[i].k < rows[j].k;
    } else if j < i {
      assert rows[j].k < rows[i].k;
    }
  }

  /** No group claims the artifact, or its group has no more to it. */
  ghost predicate NotRebuilt(fs: seq<Fold>, p: string, n: nat)
  {
    ClaimingFold(fs, p, n).Some? ==> TitleOnly(fs, ClaimingFold(fs, p, n).value)
  }

  lemma StaysInOrder(ps: seq<Project>, fs: seq<Fold>, a: Address, b: Address)
    requires WellFormed(ps) && IsVersion(ps, a) && IsVersion(ps, b) && OfOneArtifact(a, b)
    requires NotRebuilt(fs, a.p, a.n) && PickingFold(fs, a.p, a.n, a.k).None? && PickingFold(fs, b.p, b.n, b.k).None?
    ensures OfOneArtifact(FoldTarget(ps, fs, a), FoldTarget(ps, fs, b))
    ensures FoldTarget(ps, fs, a).n == a.n
    ensures FoldTarget(ps, fs, a).k < FoldTarget(ps, fs, b).k <==> a.k < b.k
  {
    LookupWellVersioned(ps, a.p, a.n);
    RestInOrder(fs, a.p, Lookup(ps, a.p, a.n).value, a.k, b.k);
    hide Unpicked, RowPlace, WellFormed;
  }

  /** Versions that stay in an artifact which no group rebuilds stay in their order. */
  lemma OtherVersionsKeepOrder(r: Registry, plan: Plan, a: Address, b: Address)
    requires Plannable(r, plan) && Grouped(r, plan).Ok?
    requires IsVersion(r.projects, a) && IsVersion(r.projects, b) && OfOneArtifact(MergedTo(r, plan, a), MergedTo(r, plan, b))
    requires var m, n, fs := MergedTo(r, plan, a), MergedTo(r, plan, b), FoldsOf(r, plan);
             && NotRebuilt(fs, m.p, m.n)
             && PickingFold(fs, m.p, m.n, m.k).None? && PickingFold(fs, n.p, n.n, n.k).None?
    ensures OfOneArtifact(NowAt(r, plan, a), NowAt(r, plan, b))
    ensures NowAt(r, plan, a).k < NowAt(r, plan, b).k <==> MergedTo(r, plan, a).k < MergedTo(r, plan, b).k
  {
    hide Grouped, Plannable, DraftOf, FoldsOf, WellFormed, FoldsOk, Foldable, Folded, FoldTarget, DenseMoves, DenseProjects;
    hide NotRebuilt, Lookup;
    var ps, fs := DraftOf(r, plan).projects, FoldsOf(r, plan);
    var m, n := MergedTo(r, plan, a), MergedTo(r, plan, b);
    Stages(r, plan, a);
    Stages(r, plan, b);
    StaysInOrder(ps, fs, m, n);
    DenseKeepsPlaces(Folded(ps, fs), FoldTarget(ps, fs, m), FoldTarget(ps, fs, n));
  }

  lemma FoldTargetUnclaimed(ps: seq<Project>, fs: seq<Fold>, a: Address)
    requires WellFormed(ps) && a.ArtifactAt? && Live(ps, a) && NotRebuilt(fs, a.p, a.n)
    requires !TakenFrom(fs, a.p, a.n)
    ensures FoldTarget(ps, fs, a) == a
    ensures var x := At(ps, a).value;
            At(Folded(ps, fs), a) ==
            Some(match ClaimingFold(fs, a.p, a.n) case None => x case Some(f) => x.(title := f.title))
  {
    FoldedLookup(ps, fs, a.p, a.n);
    LookupWellVersioned(ps, a.p, a.n);
  }

  /** An artifact that no group rebuilds or takes a version of stays what it is, under its group's title if it has
      one. */
  lemma OtherArtifactsStay(r: Registry, plan: Plan, a: Address)
    requires Plannable(r, plan) && Grouped(r, plan).Ok? && a.ArtifactAt? && Live(r.projects, a)
    requires var m, fs := MergedTo(r, plan, a), FoldsOf(r, plan);
             m.ArtifactAt? && NotRebuilt(fs, m.p, m.n) && !TakenFrom(fs, m.p, m.n)
    ensures var m, x := MergedTo(r, plan, a), At(r.projects, a).value;
            At(Grouped(r, plan).value.registry.projects, NowAt(r, plan, a)) ==
            Some(match ClaimingFold(FoldsOf(r, plan), m.p, m.n) case None => x case Some(f) => x.(title := f.title))
  {
    hide Grouped, Plannable, DraftOf, FoldsOf, WellFormed, FoldsOk, Foldable, Folded, FoldTarget, DenseMoves, DenseProjects;
    hide NotRebuilt, TakenFrom, Lookup, FindProject;
    var ps, fs := DraftOf(r, plan).projects, FoldsOf(r, plan);
    Stages(r, plan, a);
    FoldTargetUnclaimed(ps, fs, MergedTo(r, plan, a));
    DenseCarries(Folded(ps, fs));
    StrictlyCarried(Folded(ps, fs), DenseMoves(Folded(ps, fs)), DenseProjects(Folded(ps, fs)), MergedTo(r, plan, a));
  }

  // Artifact numbers.

  /** In the new registry artifacts are numbered in order of their first dates. */
  lemma ArtifactsByDate(r: Registry, plan: Plan, p: string, m: nat, n: nat)
    requires Plannable(r, plan) && Grouped(r, plan).Ok?
    requires var ps := Grouped(r, plan).value.registry.projects; Lookup(ps, p, m).Some? && Lookup(ps, p, n).Some?
    ensures var ps := Grouped(r, plan).value.registry.projects;
            m < n ==> !StartsBefore(Lookup(ps, p, n).value, Lookup(ps, p, m).value)
  {
    var now := Grouped(r, plan).value.registry;
    GroupingKeepsEverything(r, plan);
    GroupedDenseAlready(r, plan);
    hide Grouped, StartsBefore, DenseMoves;
    NumberedByFirstDate(now, p, m, n);
    assert DenseMoves(now.projects) == map[];
  }

  lemma GroupedDenseAlready(r: Registry, plan: Plan)
    requires Plannable(r, plan) && Grouped(r, plan).Ok?
    ensures DenseMoves(Grouped(r, plan).value.registry.projects) == map[]
  {
    hide Grouped, Finished, DraftOf, FoldsOf, DenseMoves, DenseProjects, Folded, WellFormed, FoldsOk, Foldable;
    var d, fs := DraftOf(r, plan), FoldsOf(r, plan);
    StagesHold(r, plan);
    FoldedWellFormed(d.projects, fs);
    FinishedParts(r, d, fs);
    DenseMovesFixed(Folded(d.projects, fs));
  }

  /** Two artifacts that a plan leaves in one project are numbered by first date, and on equal first dates in the order
      of the numbers that the folds left them. */
  lemma GroupedNumbers(r: Registry, plan: Plan, a: Address, b: Address)
    requires Plannable(r, plan) && Grouped(r, plan).Ok? && a.ArtifactAt? && b.ArtifactAt?
    requires Live(r.projects, a) && Live(r.projects, b)
    requires NowAt(r, plan, a).p == NowAt(r, plan, b).p
    ensures var ps, x, y := Grouped(r, plan).value.registry.projects, NowAt(r, plan, a), NowAt(r, plan, b);
            var m := FoldTarget(DraftOf(r, plan).projects, FoldsOf(r, plan), MergedTo(r, plan, a));
            var n := FoldTarget(DraftOf(r, plan).projects, FoldsOf(r, plan), MergedTo(r, plan, b));
            && x.ArtifactAt? && y.ArtifactAt? && Lookup(ps, x.p, x.n).Some? && Lookup(ps, y.p, y.n).Some?
            && m.ArtifactAt? && n.ArtifactAt?
            && var one, other := Lookup(ps, x.p, x.n).value, Lookup(ps, y.p, y.n).value;
               x.n < y.n <==> StartsBefore(one, other) || (!StartsBefore(other, one) && m.n < n.n)
  {
    hide Grouped, Plannable, DraftOf, FoldsOf, WellFormed, FoldsOk, Foldable, Folded, FoldTarget, DenseMoves, DenseProjects;
    hide StartsBefore, FindArtifact, FindProject;
    var ps, fs := DraftOf(r, plan).projects, FoldsOf(r, plan);
    Stages(r, plan, a);
    Stages(r, plan, b);
    var m, n := FoldTarget(ps, fs, MergedTo(r, plan, a)), FoldTarget(ps, fs, MergedTo(r, plan, b));
    TargetKeepsKind(ps, fs, MergedTo(r, plan, a));
    TargetKeepsKind(ps, fs, MergedTo(r, plan, b));
    DenseKeepsProject(Folded(ps, fs), m);
    DenseKeepsProject(Folded(ps, fs), n);
    var folded := Registry(Folded(ps, fs), map[]);
    NumberedByFirstDate(folded, m.p, m.n, n.n);
    assert Densified(folded).projects == DenseProjects(folded.projects);
    RenumberedStarts(Lookup(folded.projects, m.p, m.n).value, Lookup(folded.projects, n.p, n.n).value,
                     NowAt(r, plan, a).n, NowAt(r, plan, b).n);
  }

  lemma DenseKeepsProject(ps: seq<Project>, b: Address)
    requires Live(ps, b)
    ensures Follow(DenseMoves(ps), b).p == b.p
  {
    DenseFollows(ps, b);
  }

  lemma RenumberedStarts(x: Artifact, y: Artifact, i: nat, j: nat)
    ensures StartsBefore(x.(number := i), y.(number := j)) == StartsBefore(x, y)
    ensures StartsBefore(y.(number := j), x.(number := i)) == StartsBefore(y, x)
  {
  }
}

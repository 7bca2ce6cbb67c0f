/** What the folds of a plan do to addresses: where each version and artifact goes, that versions keep their revision on
    the way, and that the addresses of the result are well-formed again. */
module FoldAddresses {
  import opened Basics
  import Sorting
  import opened Registry
  import opened AddressMaps
  import opened Fold

  lemma SettledKeepsNumber(fs: seq<Fold>, p: string, x: Artifact)
    ensures Settled(fs, p, x).Some? ==> Settled(fs, p, x).value.number == x.number && Settled(fs, p, x).value.uid == x.uid
  {
  }

  /** Looking an artifact up afterwards finds what became of the one looked up before. */
  lemma FoldedLookup(ps: seq<Project>, fs: seq<Fold>, p: string, n: nat)
    requires WellFormed(ps)
    ensures Lookup(Folded(ps, fs), p, n) ==
            (match Lookup(ps, p, n) case None => None case Some(x) => Settled(fs, p, x))
    ensures FindProject(Folded(ps, fs), p).Some? <==> FindProject(ps, p).Some?
  {
    hide Settled, WellVersioned;
    var g := (q: Project) => Some(SettledProject(fs, q));
    FindProjectMap(g, ps, p);
    if FindProject(ps, p).Some? {
      var q := FindProject(ps, p).value;
      forall x | x in q.artifacts ensures Settled(fs, q.id, x).Some? ==> Settled(fs, q.id, x).value.number == x.number {
        SettledKeepsNumber(fs, q.id, x);
      }
      FindArtifactFilter((x: Artifact) => Settled(fs, q.id, x), q.artifacts, n);
    }
  }

  /** A version's row is in the fold that takes it, or in the one that claims its artifact. */
  ghost predicate RowIn(fs: seq<Fold>, f: Fold, n: nat, k: nat)
  {
    f in fs && (Picks(f, f.project, n, k) || (Claims(f, f.project, n) && PickingFold(fs, f.project, n, k).None?))
  }

  lemma RowPlaced(ps: seq<Project>, fs: seq<Fold>, f: Fold, n: nat, k: nat)
    requires WellFormed(ps) && FoldsOk(ps, fs) && RowIn(fs, f, n, k)
    requires Lookup(ps, f.project, n).Some? && 1 <= k <= |Lookup(ps, f.project, n).value.versions|
    ensures var i := RowPlace(Ordered(fs, f), n, k);
            i < |Ordered(fs, f)| && Ordered(fs, f)[i].version == Lookup(ps, f.project, n).value.versions[k - 1]
  {
    assert FoldOk(ps, f);
    hide FoldsOk, FoldOk, WellFormed, Ordered, Picks, Claims;
    var rows := Ordered(fs, f);
    var row := Row(n, k, Lookup(ps, f.project, n).value.versions[k - 1]);
    OrderedRow(ps, fs, f, row);
    assert row in rows;
    var i := RowPlace(rows, n, k);
    assert rows[i] in rows;
    OrderedRow(ps, fs, f, rows[i]);
  }

  /** Each row is found at its own place. */
  lemma RowFound(ps: seq<Project>, fs: seq<Fold>, f: Fold, i: nat)
    requires WellFormed(ps) && FoldsOk(ps, fs) && f in fs && i < |Ordered(fs, f)|
    ensures var row := Ordered(fs, f)[i];
            TrueRow(ps, f.project, row) && RowIn(fs, f, row.n, row.k) && RowPlace(Ordered(fs, f), row.n, row.k) == i
  {
    OrderedDistinct(ps, fs, f);
    assert FoldOk(ps, f);
    hide FoldsOk, FoldOk, WellFormed, Ordered, Picks, Claims;
    var rows := Ordered(fs, f);
    assert rows[i] in rows;
    OrderedRow(ps, fs, f, rows[i]);
    var j := RowPlace(rows, rows[i].n, rows[i].k);
    assert rows[j] in rows;
    OrderedRow(ps, fs, f, rows[j]);
  }

  /** The artifact a rebuilding fold keeps. */
  lemma KeeperRebuilt(ps: seq<Project>, fs: seq<Fold>, f: Fold)
    requires WellFormed(ps) && FoldsOk(ps, fs) && f in fs && !TitleOnly(fs, f)
    ensures var found := Lookup(Folded(ps, fs), f.project, Keeper(f));
            found.Some? && found.value.versions == Resequenced(Ordered(fs, f))
            && found.value.current == |Ordered(fs, f)|
  {
    var x := f.members[0];
    assert x in f.members && FoldOk(ps, f);
    assert PositionOf(f.members, x.number) == 0;
    Claimer(ps, fs, f, f.project, x.number);
    FoldedLookup(ps, fs, f.project, x.number);
  }

  lemma RestPlaced(fs: seq<Fold>, p: string, x: Artifact, k: nat)
    requires WellVersioned(x) && 1 <= k <= |x.versions| && PickingFold(fs, p, x.number, k).None?
    ensures var i := RowPlace(Unpicked(fs, p, x), x.number, k);
            i < |Unpicked(fs, p, x)| && Unpicked(fs, p, x)[i].version == x.versions[k - 1]
  {
    var rows := Unpicked(fs, p, x);
    var row := Row(x.number, k, x.versions[k - 1]);
    UnpickedMember(fs, p, x, row);
    var i := RowPlace(rows, x.number, k);
    assert rows[i] in rows;
    UnpickedMember(fs, p, x, rows[i]);
  }

  /** A version goes where its row is. */
  lemma RebuiltVersion(ps: seq<Project>, fs: seq<Fold>, f: Fold, n: nat, k: nat)
    requires WellFormed(ps) && FoldsOk(ps, fs) && !TitleOnly(fs, f) && RowIn(fs, f, n, k)
    requires IsVersion(ps, VersionAt(f.project, n, k))
    ensures At(Folded(ps, fs), VersionAt(f.project, Keeper(f), RowPlace(Ordered(fs, f), n, k) + 1))
            == At(ps, VersionAt(f.project, n, k))
    ensures RevisionAt(Folded(ps, fs), VersionAt(f.project, Keeper(f), RowPlace(Ordered(fs, f), n, k) + 1))
            == RevisionAt(ps, VersionAt(f.project, n, k))
  {
    RowPlaced(ps, fs, f, n, k);
    KeeperRebuilt(ps, fs, f);
  }

  lemma PickedNotTitleOnly(fs: seq<Fold>, f: Fold, p: string, n: nat, k: nat)
    requires Picks(f, p, n, k)
    ensures !TitleOnly(fs, f)
  {
    var pick :| pick in f.picked && pick.artifact.number == n && pick.k == k;
  }

  /** Every version moves to an address of the same version, with the same revision. */
  lemma VersionCarried(ps: seq<Project>, fs: seq<Fold>, a: Address)
    requires WellFormed(ps) && FoldsOk(ps, fs) && IsVersion(ps, a)
    ensures At(Folded(ps, fs), FoldTarget(ps, fs, a)) == At(ps, a)
    ensures RevisionAt(Folded(ps, fs), FoldTarget(ps, fs, a)) == RevisionAt(ps, a)
  {
    hide WellFormed, FoldsOk, Folded, Ordered, Unpicked, Lookup;
    var p, n, k := a.p, a.n, a.k;
    match PickingFold(fs, p, n, k)
    case Some(f) =>
      PickedNotTitleOnly(fs, f, p, n, k);
      RebuiltVersion(ps, fs, f, n, k);
    case None =>
      var x := Lookup(ps, p, n).value;
      LookupWellVersioned(ps, p, n);
      match ClaimingFold(fs, p, n)
      case Some(f) =>
        if TitleOnly(fs, f) {
          FoldedLookup(ps, fs, p, n);
        } else {
          RebuiltVersion(ps, fs, f, n, k);
        }
      case None =>
        FoldedLookup(ps, fs, p, n);
        if TakenFrom(fs, p, n) {
          RestPlaced(fs, p, x, k);
        }
  }

  // Artifact addresses.

  /** A version that ends up in a rebuilt artifact is held there. */
  lemma HeldByKeeper(ps: seq<Project>, fs: seq<Fold>, f: Fold, n: nat, k: nat)
    requires WellFormed(ps) && FoldsOk(ps, fs) && !TitleOnly(fs, f) && RowIn(fs, f, n, k)
    requires IsVersion(ps, VersionAt(f.project, n, k))
    ensures var found := Lookup(Folded(ps, fs), f.project, Keeper(f));
            found.Some? && At(ps, VersionAt(f.project, n, k)).value.uid in Holds(found.value)
  {
    RowPlaced(ps, fs, f, n, k);
    KeeperRebuilt(ps, fs, f);
    var i := RowPlace(Ordered(fs, f), n, k);
    var y := Lookup(Folded(ps, fs), f.project, Keeper(f)).value;
    assert y.versions[i] in y.versions;
  }

  /** The first version of an artifact folded away is held by the fold's keeper. */
  lemma FoldedAwayHeld(ps: seq<Project>, fs: seq<Fold>, f: Fold, n: nat)
    requires WellFormed(ps) && FoldsOk(ps, fs) && Foldable(fs)
    requires f in fs && Claims(f, f.project, n) && n != Keeper(f) && Lookup(ps, f.project, n).Some?
    ensures var found := Lookup(Folded(ps, fs), f.project, Keeper(f));
            found.Some? && !(Holds(Lookup(ps, f.project, n).value) !! Holds(found.value))
  {
    hide WellFormed, FoldsOk, Folded, Ordered, Lookup;
    var x := Lookup(ps, f.project, n).value;
    LookupWellVersioned(ps, f.project, n);
    assert |f.members| != 1;
    HeldByKeeper(ps, fs, f, n, 1);
    assert x.versions[0] in x.versions;
    assert x.versions[0].uid in Holds(x);
  }

  /** An artifact left without versions leads to the first fold that took one. */
  lemma EmptiedHeld(ps: seq<Project>, fs: seq<Fold>, f: Fold, p: string, n: nat)
    requires WellFormed(ps) && FoldsOk(ps, fs) && f in fs && PicksFrom(f, p, n) && Lookup(ps, p, n).Some?
    ensures var found := Lookup(Folded(ps, fs), p, Keeper(f));
            found.Some? && !(Holds(Lookup(ps, p, n).value) !! Holds(found.value))
  {
    var x := Lookup(ps, p, n).value;
    var pick :| pick in f.picked && pick.artifact.number == n;
    assert FoldOk(ps, f) && Picks(f, p, n, pick.k);
    PickedNotTitleOnly(fs, f, p, n, pick.k);
    HeldByKeeper(ps, fs, f, n, pick.k);
    assert x.versions[pick.k - 1] in x.versions;
    assert x.versions[pick.k - 1].uid in Holds(x);
  }

  lemma ArtifactCarried(ps: seq<Project>, fs: seq<Fold>, a: Address)
    requires WellFormed(ps) && FoldsOk(ps, fs) && Foldable(fs) && a.ArtifactAt? && Live(ps, a)
    ensures Live(Folded(ps, fs), FoldTarget(ps, fs, a))
    ensures Leads(At(ps, a).value, At(Folded(ps, fs), FoldTarget(ps, fs, a)).value, false)
  {
    var p, n := a.p, a.n;
    var x := Lookup(ps, p, n).value;
    LookupWellVersioned(ps, p, n);
    FoldedLookup(ps, fs, p, n);
    SettledKeepsNumber(fs, p, x);
    match ClaimingFold(fs, p, n)
    case Some(f) =>
      if n != Keeper(f) {
        FoldedAwayHeld(ps, fs, f, n);
      }
    case None =>
      match TakingFold(fs, p, n)
      case Some(f) => EmptiedHeld(ps, fs, f, p, n);
      case None =>
  }

  /** Artifact `n` keeps its number in its group's fold, and every version of it is listed in another group. */
  ghost predicate EmptiedKeeper(ps: seq<Project>, fs: seq<Fold>, p: string, n: nat)
    requires Lookup(ps, p, n).Some?
  {
    && ClaimingFold(fs, p, n).Some? && n == Keeper(ClaimingFold(fs, p, n).value)
    && forall k :: 1 <= k <= |Lookup(ps, p, n).value.versions| ==> ListedByAnother(fs, p, n, k)
  }

  ghost predicate ListedByAnother(fs: seq<Fold>, p: string, n: nat, k: nat)
  {
    PickingFold(fs, p, n, k).Some? && PickingFold(fs, p, n, k) != ClaimingFold(fs, p, n)
  }

  lemma KeeperShares(ps: seq<Project>, fs: seq<Fold>, f: Fold, n: nat)
    requires WellFormed(ps) && FoldsOk(ps, fs) && Lookup(ps, f.project, n).Some?
    requires ClaimingFold(fs, f.project, n) == Some(f) && n == Keeper(f) && !EmptiedKeeper(ps, fs, f.project, n)
    ensures var found := Lookup(Folded(ps, fs), f.project, n);
            found.Some? && !(Holds(Lookup(ps, f.project, n).value) !! Holds(found.value))
  {
    hide WellFormed, FoldsOk, Folded, Ordered, Lookup, WellVersioned;
    var x := Lookup(ps, f.project, n).value;
    LookupWellVersioned(ps, f.project, n);
    var k :| 1 <= k <= |x.versions| && !ListedByAnother(fs, f.project, n, k);
    if TitleOnly(fs, f) {
      FoldedLookup(ps, fs, f.project, n);
    } else {
      HeldByKeeper(ps, fs, f, n, k);
    }
    assert x.versions[k - 1] in x.versions && x.versions[k - 1].uid in Holds(x);
  }

  lemma EmptiedKeeperRebuilt(ps: seq<Project>, fs: seq<Fold>, p: string, n: nat)
    requires WellFormed(ps) && Lookup(ps, p, n).Some? && EmptiedKeeper(ps, fs, p, n)
    ensures !TitleOnly(fs, ClaimingFold(fs, p, n).value)
  {
    LookupWellVersioned(ps, p, n);
    assert ListedByAnother(fs, p, n, 1);
  }

  /** An emptied keeper holds none of the versions it had. */
  lemma EmptiedKeeperShares(ps: seq<Project>, fs: seq<Fold>, f: Fold, n: nat)
    requires WellFormed(ps) && FoldsOk(ps, fs) && VersionsOnce(ps) && Lookup(ps, f.project, n).Some?
    requires ClaimingFold(fs, f.project, n) == Some(f) && EmptiedKeeper(ps, fs, f.project, n)
    ensures var found := Lookup(Folded(ps, fs), f.project, n);
            found.Some? && Holds(Lookup(ps, f.project, n).value) !! Holds(found.value)
  {
    hide WellFormed, FoldsOk, Folded, Ordered, Lookup;
    EmptiedKeeperRebuilt(ps, fs, f.project, n);
    KeeperRebuilt(ps, fs, f);
    var x, y := Lookup(ps, f.project, n).value, Lookup(Folded(ps, fs), f.project, n).value;
    forall u | u in Holds(x) ensures u !in Holds(y) {
      if u in Holds(y) {
        var k :| 0 <= k < |x.versions| && x.versions[k].uid == u;
        var i :| 0 <= i < |y.versions| && y.versions[i].uid == u;
        RowFound(ps, fs, f, i);
        var row := Ordered(fs, f)[i];
        assert IsVersion(ps, VersionAt(f.project, n, k + 1)) && IsVersion(ps, VersionAt(f.project, row.n, row.k));
        assert ListedByAnother(fs, f.project, n, k + 1);
        Picker(ps, fs, f, f.project, n, k + 1);
      }
    }
  }

  lemma RestShares(ps: seq<Project>, fs: seq<Fold>, p: string, n: nat)
    requires WellFormed(ps) && Lookup(ps, p, n).Some? && ClaimingFold(fs, p, n).None?
    requires TakenFrom(fs, p, n) && Unpicked(fs, p, Lookup(ps, p, n).value) != []
    ensures var found := Lookup(Folded(ps, fs), p, n);
            found.Some? && !(Holds(Lookup(ps, p, n).value) !! Holds(found.value))
  {
    var x := Lookup(ps, p, n).value;
    LookupWellVersioned(ps, p, n);
    FoldedLookup(ps, fs, p, n);
    var rows := Unpicked(fs, p, x);
    assert rows[0] in rows;
    UnpickedMember(fs, p, x, rows[0]);
    var y := Lookup(Folded(ps, fs), p, n).value;
    assert y.versions[0] in y.versions && y.versions[0].uid in Holds(y);
    assert rows[0].version in x.versions && rows[0].version.uid in Holds(x);
  }

  /** An artifact's address goes on to lead to a version the artifact held, unless the artifact is an emptied
      keeper. */
  lemma SharesUnlessEmptied(ps: seq<Project>, fs: seq<Fold>, a: Address)
    requires WellFormed(ps) && FoldsOk(ps, fs) && Foldable(fs) && VersionsOnce(ps) && a.ArtifactAt? && Live(ps, a)
    ensures Live(Folded(ps, fs), FoldTarget(ps, fs, a)) && FoldTarget(ps, fs, a).ArtifactAt?
    ensures At(ps, a).value.holds !! At(Folded(ps, fs), FoldTarget(ps, fs, a)).value.holds
            <==> EmptiedKeeper(ps, fs, a.p, a.n)
  {
    var p, n := a.p, a.n;
    var x := Lookup(ps, p, n).value;
    hide WellFormed, FoldsOk, Foldable, VersionsOnce, Folded, Ordered, Unpicked, Lookup;
    ArtifactCarried(ps, fs, a);
    match ClaimingFold(fs, p, n)
    case Some(f) =>
      if n != Keeper(f) {
        FoldedAwayHeld(ps, fs, f, n);
      } else if EmptiedKeeper(ps, fs, p, n) {
        EmptiedKeeperShares(ps, fs, f, n);
      } else {
        KeeperShares(ps, fs, f, n);
      }
    case None =>
      match TakingFold(fs, p, n)
      case Some(f) =>
        if Unpicked(fs, p, x) == [] {
          EmptiedHeld(ps, fs, f, p, n);
        } else {
          RestShares(ps, fs, p, n);
        }
      case None =>
        FoldedLookup(ps, fs, p, n);
        HoldsSome(ps, p, n);
  }

  lemma HoldsSome(ps: seq<Project>, p: string, n: nat)
    requires WellFormed(ps) && Lookup(ps, p, n).Some?
    ensures Holds(Lookup(ps, p, n).value) != {}
  {
    LookupWellVersioned(ps, p, n);
    var x := Lookup(ps, p, n).value;
    assert x.versions[0] in x.versions && x.versions[0].uid in Holds(x);
  }

  lemma FoldCarries(ps: seq<Project>, fs: seq<Fold>)
    requires WellFormed(ps) && FoldsOk(ps, fs) && Foldable(fs)
    ensures Carries(ps, FoldMoves(ps, fs), Folded(ps, fs), false)
  {
    forall a | Live(ps, a)
      ensures Live(Folded(ps, fs), FoldTarget(ps, fs, a))
      ensures Leads(At(ps, a).value, At(Folded(ps, fs), FoldTarget(ps, fs, a)).value, false)
    {
      match a
      case ProjectAt(p) => FoldedLookup(ps, fs, p, 0);
      case ArtifactAt(_, _) => ArtifactCarried(ps, fs, a);
      case VersionAt(_, _, _) => VersionCarried(ps, fs, a);
    }
  }

  // Where each version of the result came from.

  lemma RestFound(fs: seq<Fold>, p: string, x: Artifact, i: nat)
    requires WellVersioned(x) && i < |Unpicked(fs, p, x)|
    ensures var row := Unpicked(fs, p, x)[i];
            && row.n == x.number && 1 <= row.k <= |x.versions| && PickingFold(fs, p, row.n, row.k).None?
            && RowPlace(Unpicked(fs, p, x), row.n, row.k) == i
  {
    var rows := Unpicked(fs, p, x);
    UnpickedDistinct(fs, p, x);
    assert rows[i] in rows;
    UnpickedMember(fs, p, x, rows[i]);
    var j := RowPlace(rows, rows[i].n, rows[i].k);
    assert rows[j] in rows;
    UnpickedMember(fs, p, x, rows[j]);
  }

  lemma RebuiltSource(ps: seq<Project>, fs: seq<Fold>, f: Fold, k: nat) returns (a: Address)
    requires WellFormed(ps) && FoldsOk(ps, fs) && f in fs && !TitleOnly(fs, f) && 1 <= k <= |Ordered(fs, f)|
    ensures IsVersion(ps, a) && FoldTarget(ps, fs, a) == VersionAt(f.project, Keeper(f), k)
  {
    hide WellFormed, FoldsOk, Ordered, Claims, Picks;
    RowFound(ps, fs, f, k - 1);
    var row := Ordered(fs, f)[k - 1];
    a := VersionAt(f.project, row.n, row.k);
    if Picks(f, f.project, row.n, row.k) {
      Picker(ps, fs, f, f.project, row.n, row.k);
    } else {
      Claimer(ps, fs, f, f.project, row.n);
    }
  }

  lemma FoldPredecessor(ps: seq<Project>, fs: seq<Fold>, b: Address) returns (a: Address)
    requires WellFormed(ps) && FoldsOk(ps, fs) && IsVersion(Folded(ps, fs), b)
    ensures IsVersion(ps, a) && FoldTarget(ps, fs, a) == b
  {
    FoldedLookup(ps, fs, b.p, b.n);
    LookupWellVersioned(ps, b.p, b.n);
    var x := Lookup(ps, b.p, b.n).value;
    match ClaimingFold(fs, b.p, b.n)
    case Some(f) =>
      if TitleOnly(fs, f) {
        a := b;
        UntouchedTarget(ps, fs, f, a);
      } else {
        a := RebuiltSource(ps, fs, f, b.k);
      }
    case None =>
      if TakenFrom(fs, b.p, b.n) {
        RestFound(fs, b.p, x, b.k - 1);
        a := VersionAt(b.p, b.n, Unpicked(fs, b.p, x)[b.k - 1].k);
      } else {
        a := b;
      }
  }

  lemma UntouchedTarget(ps: seq<Project>, fs: seq<Fold>, f: Fold, a: Address)
    requires a.VersionAt? && ClaimingFold(fs, a.p, a.n) == Some(f) && TitleOnly(fs, f)
    ensures FoldTarget(ps, fs, a) == a
  {
    assert f.members[0].number == a.n;
  }

  lemma FoldCovers(ps: seq<Project>, fs: seq<Fold>)
    requires WellFormed(ps) && FoldsOk(ps, fs)
    ensures Covers(ps, FoldMoves(ps, fs), Folded(ps, fs))
  {
    forall b | IsVersion(Folded(ps, fs), b) ensures exists a :: IsVersion(ps, a) && Follow(FoldMoves(ps, fs), a) == b {
      var a := FoldPredecessor(ps, fs, b);
    }
  }

  // The shape of the result.

  lemma SettledShape(ps: seq<Project>, fs: seq<Fold>, p: string, x: Artifact)
    requires FoldsOk(ps, fs) && Foldable(fs) && WellVersioned(x)
    ensures Settled(fs, p, x).Some? ==> WellVersioned(Settled(fs, p, x).value)
  {
  }

  lemma SettledWellNumbered(ps: seq<Project>, fs: seq<Fold>, p: Project)
    requires FoldsOk(ps, fs) && Foldable(fs) && WellNumbered(p)
    ensures WellNumbered(SettledProject(fs, p))
  {
    hide FoldsOk, Foldable, Settled;
    var h := (x: Artifact) => Settled(fs, p.id, x);
    var q := SettledProject(fs, p);
    forall x | x in p.artifacts && h(x).Some? ensures h(x).value.number == x.number && WellVersioned(h(x).value) {
      SettledKeepsNumber(fs, p.id, x);
      SettledShape(ps, fs, p.id, x);
    }
    FilterDistinct(h, p.artifacts);
    FilterMembers(h, p.artifacts);
    forall y | y in q.artifacts ensures WellVersioned(y) && (p.next.Some? ==> y.number < p.next.value) {
      var x :| x in p.artifacts && h(x) == Some(y);
    }
  }

  lemma FoldedWellFormed(ps: seq<Project>, fs: seq<Fold>)
    requires WellFormed(ps) && FoldsOk(ps, fs) && Foldable(fs)
    ensures WellFormed(Folded(ps, fs))
  {
    var g := (q: Project) => Some(SettledProject(fs, q));
    FilterDistinctIds(g, ps);
    FilterMembers(g, ps);
    forall q | q in Folded(ps, fs) ensures WellNumbered(q) {
      var p :| p in ps && g(p) == Some(q);
      SettledWellNumbered(ps, fs, p);
    }
  }

  /** A rebuilt artifact's versions are in order of date, then of the artifact and version numbers they had. */
  lemma RebuiltInDateOrder(fs: seq<Fold>, f: Fold)
    ensures Sorting.Sorted(RowKey, Ordered(fs, f))
  {
    Sorting.SortBySorts(RowKey, MemberRows(fs, f.project, f.members) + PickedRows(f.picked));
  }
}

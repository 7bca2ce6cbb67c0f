/** Folding as the program does it: one fold after another on the registry, then the artifacts that lost versions. The
    run keeps the moves made so far and the addresses of the artifacts already settled, and ends with the projects and
    moves of `Folded` and `FoldMoves`; the lemmas before the class say what each fold, and each home left over, adds. */
module FoldRuns {
  import opened Basics
  import opened Registry
  import opened AddressMaps
  import opened Merge
  import opened Fold
  import opened FoldAddresses
  import RegistryDocuments

  /** `source`, of `project`, lost versions; `keeper` is the artifact of the first fold that took some. */
  datatype Home = Home(project: string, source: Artifact, keeper: nat)

  // The registry with some artifacts settled.

  function Staged(ps: seq<Project>, fs: seq<Fold>, done: set<Address>): seq<Project>
  {
    FilterMap((p: Project) => Some(p.(artifacts := FilterMap((x: Artifact) =>
      if ArtifactAt(p.id, x.number) in done then Settled(fs, p.id, x) else Some(x), p.artifacts))), ps)
  }

  /** Replace or remove artifact `n` of project `p`. */
  function Put(ps: seq<Project>, p: string, n: nat, y: Option<Artifact>): seq<Project>
  {
    FilterMap((q: Project) => Some(if q.id != p then q else
      q.(artifacts := FilterMap((x: Artifact) => if x.number == n then y else Some(x), q.artifacts))), ps)
  }

  lemma NothingStaged(ps: seq<Project>, fs: seq<Fold>, done: set<Address>)
    requires done == {}
    ensures Staged(ps, fs, done) == ps
  {
    var f := (p: Project) => Some(p.(artifacts := FilterMap((x: Artifact) =>
      if ArtifactAt(p.id, x.number) in done then Settled(fs, p.id, x) else Some(x), p.artifacts)));
    forall p | p in ps ensures f(p) == Some(p) {
      FilterNothing((x: Artifact) => if ArtifactAt(p.id, x.number) in done then Settled(fs, p.id, x) else Some(x), p.artifacts);
    }
    FilterNothing(f, ps);
  }

  lemma PutSettlesProject(fs: seq<Fold>, q: Project, done: set<Address>, n: nat, x: Artifact)
    requires WellNumbered(q) && FindArtifact(q.artifacts, n) == Some(x)
    ensures var before := FilterMap((z: Artifact) =>
                if ArtifactAt(q.id, z.number) in done then Settled(fs, q.id, z) else Some(z), q.artifacts);
            FilterMap((z: Artifact) => if z.number == n then Settled(fs, q.id, x) else Some(z), before)
            == FilterMap((z: Artifact) => if ArtifactAt(q.id, z.number) in done + {ArtifactAt(q.id, n)}
                                          then Settled(fs, q.id, z) else Some(z), q.artifacts)
  {
    hide Settled;
    var f := (z: Artifact) => if ArtifactAt(q.id, z.number) in done then Settled(fs, q.id, z) else Some(z);
    var g := (z: Artifact) => if z.number == n then Settled(fs, q.id, x) else Some(z);
    var h := (z: Artifact) => if ArtifactAt(q.id, z.number) in done + {ArtifactAt(q.id, n)} then Settled(fs, q.id, z) else Some(z);
    forall z | z in q.artifacts ensures h(z) == match f(z) case None => None case Some(y) => g(y) {
      SettledKeepsNumber(fs, q.id, z);
      var j :| 0 <= j < |q.artifacts| && q.artifacts[j] == z;
    }
    FilterTwice(f, g, h, q.artifacts);
  }

  /** Putting what becomes of an artifact in its place settles that artifact. */
  lemma PutSettles(ps: seq<Project>, fs: seq<Fold>, done: set<Address>, p: string, n: nat)
    requires WellFormed(ps) && Lookup(ps, p, n).Some?
    ensures Put(Staged(ps, fs, done), p, n, Settled(fs, p, Lookup(ps, p, n).value)) == Staged(ps, fs, done + {ArtifactAt(p, n)})
  {
    hide Settled, WellNumbered;
    var y := Settled(fs, p, Lookup(ps, p, n).value);
    var more := done + {ArtifactAt(p, n)};
    var f := (q: Project) => Some(q.(artifacts := FilterMap((x: Artifact) =>
      if ArtifactAt(q.id, x.number) in done then Settled(fs, q.id, x) else Some(x), q.artifacts)));
    var g := (q: Project) => Some(if q.id != p then q else
      q.(artifacts := FilterMap((x: Artifact) => if x.number == n then y else Some(x), q.artifacts)));
    var h := (q: Project) => Some(q.(artifacts := FilterMap((x: Artifact) =>
      if ArtifactAt(q.id, x.number) in more then Settled(fs, q.id, x) else Some(x), q.artifacts)));
    forall q | q in ps ensures h(q) == g(f(q).value) {
      if q.id == p {
        var i :| 0 <= i < |ps| && ps[i] == q;
        PutSettlesProject(fs, q, done, n, Lookup(ps, p, n).value);
      } else {
        FilterSame((x: Artifact) => if ArtifactAt(q.id, x.number) in done then Settled(fs, q.id, x) else Some(x),
                   (x: Artifact) => if ArtifactAt(q.id, x.number) in more then Settled(fs, q.id, x) else Some(x), q.artifacts);
      }
    }
    FilterTwice(f, g, h, ps);
  }

  /** Once every artifact that changes is settled, the registry is folded. */
  lemma AllStaged(ps: seq<Project>, fs: seq<Fold>, done: set<Address>)
    requires WellFormed(ps)
    requires forall p, n :: Lookup(ps, p, n).Some? && ArtifactAt(p, n) !in done ==>
               Settled(fs, p, Lookup(ps, p, n).value) == Some(Lookup(ps, p, n).value)
    ensures Staged(ps, fs, done) == Folded(ps, fs)
  {
    hide Settled;
    forall q | q in ps ensures FilterMap((x: Artifact) =>
        if ArtifactAt(q.id, x.number) in done then Settled(fs, q.id, x) else Some(x), q.artifacts)
      == FilterMap((x: Artifact) => Settled(fs, q.id, x), q.artifacts)
    {
      FilterSame((x: Artifact) => if ArtifactAt(q.id, x.number) in done then Settled(fs, q.id, x) else Some(x),
                 (x: Artifact) => Settled(fs, q.id, x), q.artifacts);
    }
    FilterSame((p: Project) => Some(p.(artifacts := FilterMap((x: Artifact) =>
      if ArtifactAt(p.id, x.number) in done then Settled(fs, p.id, x) else Some(x), p.artifacts))),
      (p: Project) => Some(SettledProject(fs, p)), ps);
  }

  // The moves of one fold.

  /** Row `i` becomes version `i + 1` of artifact `to`. */
  function RowMoves(p: string, to: nat, rows: seq<Row>): map<Address, Address>
  {
    if rows == [] then map[]
    else
      var last := rows[|rows| - 1];
      RowMoves(p, to, rows[..|rows| - 1])[VersionAt(p, last.n, last.k) := VersionAt(p, to, |rows|)]
  }

  ghost predicate OwnPlaces(rows: seq<Row>)
  {
    forall i :: 0 <= i < |rows| ==> RowPlace(rows, rows[i].n, rows[i].k) == i
  }

  lemma {:induction false} RowPlaceInPrefix(rows: seq<Row>, more: seq<Row>, n: nat, k: nat)
    ensures RowPlace(rows + more, n, k) == if RowPlace(rows, n, k) < |rows| then RowPlace(rows, n, k) else |rows| + RowPlace(more, n, k)
  {
    if rows == [] {
      assert rows + more == more;
    } else {
      assert (rows + more)[1..] == rows[1..] + more;
      RowPlaceInPrefix(rows[1..], more, n, k);
    }
  }

  lemma {:induction false} RowMoveOf(p: string, to: nat, rows: seq<Row>, a: Address)
    requires OwnPlaces(rows)
    ensures a in RowMoves(p, to, rows) <==> a.VersionAt? && a.p == p && RowPlace(rows, a.n, a.k) < |rows|
    ensures a in RowMoves(p, to, rows) ==> RowMoves(p, to, rows)[a] == VersionAt(p, to, RowPlace(rows, a.n, a.k) + 1)
    decreases |rows|
  {
    if rows != [] {
      var init, last := rows[..|rows| - 1], rows[|rows| - 1];
      assert rows == init + [last];
      forall i | 0 <= i < |init| ensures RowPlace(init, init[i].n, init[i].k) == i {
        RowPlaceInPrefix(init, [last], init[i].n, init[i].k);
        assert rows[i] == init[i];
      }
      RowMoveOf(p, to, init, a);
      RowPlaceInPrefix(init, [last], last.n, last.k);
      if a.VersionAt? {
        RowPlaceInPrefix(init, [last], a.n, a.k);
      }
    }
  }

  /** The members other than the keeper lead to it. */
  function AwayMoves(p: string, to: nat, xs: seq<Artifact>): map<Address, Address>
  {
    if xs == [] then map[]
    else
      var rest := AwayMoves(p, to, xs[..|xs| - 1]);
      var n := xs[|xs| - 1].number;
      if n == to then rest else rest[ArtifactAt(p, n) := ArtifactAt(p, to)]
  }

  lemma {:induction false} AwayMoveOf(p: string, to: nat, xs: seq<Artifact>, a: Address)
    ensures a in AwayMoves(p, to, xs) <==> a.ArtifactAt? && a.p == p && a.n != to && PositionOf(xs, a.n) < |xs|
    ensures a in AwayMoves(p, to, xs) ==> AwayMoves(p, to, xs)[a] == ArtifactAt(p, to)
    decreases |xs|
  {
    if xs != [] {
      var init, last := xs[..|xs| - 1], xs[|xs| - 1];
      assert xs == init + [last];
      AwayMoveOf(p, to, init, a);
      assert last in xs;
      if a.ArtifactAt? {
        assert PositionOf(xs, a.n) < |xs| <==> PositionOf(init, a.n) < |init| || last.number == a.n by {
          if PositionOf(xs, a.n) < |xs| {
            assert xs[PositionOf(xs, a.n)] in init || xs[PositionOf(xs, a.n)] == last;
          }
          if PositionOf(init, a.n) < |init| {
            assert init[PositionOf(init, a.n)] in xs;
          }
        }
      }
    }
  }

  function RebuildMoves(fs: seq<Fold>, f: Fold): map<Address, Address>
  {
    RowMoves(f.project, Keeper(f), Ordered(fs, f)) + AwayMoves(f.project, Keeper(f), f.members)
  }

  lemma OrderedPlaces(ps: seq<Project>, fs: seq<Fold>, f: Fold)
    requires WellFormed(ps) && FoldsOk(ps, fs) && f in fs
    ensures OwnPlaces(Ordered(fs, f))
  {
    hide WellFormed, FoldsOk, Ordered, RowIn, TrueRow;
    forall i | 0 <= i < |Ordered(fs, f)|
      ensures RowPlace(Ordered(fs, f), Ordered(fs, f)[i].n, Ordered(fs, f)[i].k) == i
    {
      RowFound(ps, fs, f, i);
    }
  }

  /** What a rebuilding fold moves goes where the folds as a whole take it. */
  lemma RebuildMoveOf(ps: seq<Project>, fs: seq<Fold>, f: Fold, a: Address)
    requires WellFormed(ps) && FoldsOk(ps, fs) && f in fs && !TitleOnly(fs, f)
    ensures a in RebuildMoves(fs, f) ==> Live(ps, a) && RebuildMoves(fs, f)[a] == FoldTarget(ps, fs, a)
    ensures a.ArtifactAt? && Claims(f, a.p, a.n) && a.n != Keeper(f) ==> a in RebuildMoves(fs, f)
    ensures a.VersionAt? && Live(ps, a) && a.p == f.project && RowIn(fs, f, a.n, a.k) ==> a in RebuildMoves(fs, f)
  {
    OrderedPlaces(ps, fs, f);
    hide WellFormed, FoldsOk, Ordered, OwnPlaces, Picks;
    RowMoveOf(f.project, Keeper(f), Ordered(fs, f), a);
    AwayMoveOf(f.project, Keeper(f), f.members, a);
    if a.ArtifactAt? && Claims(f, a.p, a.n) {
      Claimer(ps, fs, f, a.p, a.n);
    } else if a in RowMoves(f.project, Keeper(f), Ordered(fs, f)) {
      RowFound(ps, fs, f, RowPlace(Ordered(fs, f), a.n, a.k));
      if Picks(f, f.project, a.n, a.k) {
        Picker(ps, fs, f, f.project, a.n, a.k);
      } else {
        Claimer(ps, fs, f, f.project, a.n);
      }
    }
    if a.VersionAt? && Live(ps, a) && a.p == f.project && RowIn(fs, f, a.n, a.k) {
      RowPlaced(ps, fs, f, a.n, a.k);
    }
  }

  // What a run of folds has done.

  /** Every fold before the `i`-th has its moves, its keeper's new versions live, and its sources among the homes. */
  ghost predicate FoldsMade(ps: seq<Project>, fs: seq<Fold>, i: nat, moves: map<Address, Address>, live: set<Address>,
                            homes: seq<Home>, done: set<Address>)
    requires i <= |fs|
  {
    forall j :: 0 <= j < i ==> FoldMade(ps, fs, fs[j], moves, live, homes, done)
  }

  ghost predicate FoldMade(ps: seq<Project>, fs: seq<Fold>, f: Fold, moves: map<Address, Address>, live: set<Address>,
                           homes: seq<Home>, done: set<Address>)
  {
    && (forall p, n :: Claims(f, p, n) ==> ArtifactAt(p, n) in done)
    && (!TitleOnly(fs, f) ==> RebuildMoves(fs, f).Keys <= moves.Keys)
    && (!TitleOnly(fs, f) ==> forall k: nat :: 1 <= k <= |Ordered(fs, f)| ==> VersionAt(f.project, Keeper(f), k) in live)
    && (forall p, n :: PicksFrom(f, p, n) ==> HasHome(homes, p, n))
  }

  /** Nothing recorded is wrong, and each home belongs to the first fold that takes from its source. */
  ghost predicate RecordsTrue(ps: seq<Project>, fs: seq<Fold>, moves: map<Address, Address>, live: set<Address>, homes: seq<Home>)
  {
    && (forall a :: a in moves ==> Live(ps, a) && moves[a] == FoldTarget(ps, fs, a))
    && (forall a :: a in live ==> IsVersion(Folded(ps, fs), a))
    && (forall h :: h in homes ==> HomeTrue(ps, fs, h))
  }

  ghost predicate HomeTrue(ps: seq<Project>, fs: seq<Fold>, h: Home)
  {
    && Lookup(ps, h.project, h.source.number) == Some(h.source)
    && TakingFold(fs, h.project, h.source.number).Some?
    && Keeper(TakingFold(fs, h.project, h.source.number).value) == h.keeper
  }

  /** The home's source has been dealt with: claimed by a fold, or settled here. */
  ghost predicate HomeMade(ps: seq<Project>, fs: seq<Fold>, h: Home, moves: map<Address, Address>, live: set<Address>, done: set<Address>)
  {
    var rest := Unpicked(fs, h.project, h.source);
    ClaimingFold(fs, h.project, h.source.number).None? ==>
      && ArtifactAt(h.project, h.source.number) in done
      && HomeMoves(fs, h).Keys <= moves.Keys
      && forall k: nat :: 1 <= k <= |rest| ==> VersionAt(h.project, h.source.number, k) in live
  }

  function HomeMoves(fs: seq<Fold>, h: Home): map<Address, Address>
  {
    var rest := Unpicked(fs, h.project, h.source);
    if rest == [] then map[ArtifactAt(h.project, h.source.number) := ArtifactAt(h.project, h.keeper)]
    else RowMoves(h.project, h.source.number, rest)
  }

  lemma HomeMoveOf(ps: seq<Project>, fs: seq<Fold>, h: Home, a: Address)
    requires WellFormed(ps) && HomeTrue(ps, fs, h) && ClaimingFold(fs, h.project, h.source.number).None?
    ensures a in HomeMoves(fs, h) ==> Live(ps, a) && HomeMoves(fs, h)[a] == FoldTarget(ps, fs, a)
    ensures Live(ps, a) && Owner(a) == ArtifactAt(h.project, h.source.number) && FoldTarget(ps, fs, a) != a ==>
              a in HomeMoves(fs, h) || (a.VersionAt? && PickingFold(fs, a.p, a.n, a.k).Some?)
  {
    var rest := Unpicked(fs, h.project, h.source);
    LookupWellVersioned(ps, h.project, h.source.number);
    forall i | 0 <= i < |rest|
      ensures RowPlace(rest, rest[i].n, rest[i].k) == i && rest[i].n == h.source.number
      ensures 1 <= rest[i].k <= |h.source.versions| && PickingFold(fs, h.project, rest[i].n, rest[i].k).None?
    {
      RestFound(fs, h.project, h.source, i);
    }
    RowMoveOf(h.project, h.source.number, rest, a);
    if a.VersionAt? && Owner(a) == ArtifactAt(h.project, h.source.number) && 1 <= a.k <= |h.source.versions|
       && PickingFold(fs, a.p, a.n, a.k).None? {
      RestPlaced(fs, h.project, h.source, a.k);
    }
  }

  /** When every fold and every home has been made, the registry is folded and the moves are those of the folds. */
  lemma MovesComplete(ps: seq<Project>, fs: seq<Fold>, moves: map<Address, Address>, live: set<Address>, homes: seq<Home>,
                      done: set<Address>, a: Address)
    requires WellFormed(ps) && FoldsOk(ps, fs) && RecordsTrue(ps, fs, moves, live, homes)
    requires FoldsMade(ps, fs, |fs|, moves, live, homes, done)
    requires forall h :: h in homes ==> HomeMade(ps, fs, h, moves, live, done)
    requires Live(ps, a) && FoldTarget(ps, fs, a) != a
    ensures a in moves
  {
    hide WellFormed, FoldsOk, Ordered, RebuildMoves, Unpicked, HomeMoves, Picks, Claims, TitleOnly;
    if a.VersionAt? && PickingFold(fs, a.p, a.n, a.k).Some? {
      var f := PickingFold(fs, a.p, a.n, a.k).value;
      assert f.project == a.p by { PicksProject(f, a.p, a.n, a.k); }
      PickedNotTitleOnly(fs, f, a.p, a.n, a.k);
      RebuildMoveOf(ps, fs, f, a);
      var j :| 0 <= j < |fs| && fs[j] == f;
    } else if ClaimingFold(fs, a.p, a.n).Some? {
      var f := ClaimingFold(fs, a.p, a.n).value;
      assert f.project == a.p by { ClaimsProject(f, a.p, a.n); }
      if a.ArtifactAt? {
        AwayNotTitleOnly(fs, f, a.p, a.n);
      }
      RebuildMoveOf(ps, fs, f, a);
      var j :| 0 <= j < |fs| && fs[j] == f;
    } else {
      var f := TakingFold(fs, a.p, a.n).value;
      var j :| 0 <= j < |fs| && fs[j] == f;
      assert FoldMade(ps, fs, fs[j], moves, live, homes, done);
      var h :| h in homes && h.project == a.p && h.source.number == a.n;
      HomeMoveOf(ps, fs, h, a);
    }
  }

  lemma PicksProject(f: Fold, p: string, n: nat, k: nat)
    requires Picks(f, p, n, k)
    ensures f.project == p
  {
  }

  lemma ClaimsProject(f: Fold, p: string, n: nat)
    requires Claims(f, p, n)
    ensures f.project == p
  {
  }

  lemma AwayNotTitleOnly(fs: seq<Fold>, f: Fold, p: string, n: nat)
    requires Claims(f, p, n) && n != Keeper(f)
    ensures !TitleOnly(fs, f)
  {
  }

  lemma TakenHome(ps: seq<Project>, fs: seq<Fold>, moves: map<Address, Address>, live: set<Address>, homes: seq<Home>,
                  done: set<Address>, p: string, n: nat) returns (h: Home)
    requires FoldsMade(ps, fs, |fs|, moves, live, homes, done) && TakenFrom(fs, p, n)
    ensures h in homes && h.project == p && h.source.number == n
  {
    hide RebuildMoves, Claims, TitleOnly, Ordered, PicksFrom;
    var j :| 0 <= j < |fs| && fs[j] == TakingFold(fs, p, n).value;
    assert FoldMade(ps, fs, fs[j], moves, live, homes, done);
    h :| h in homes && h.project == p && h.source.number == n;
  }

  /** A moved address that is live again after the folds is a rebuilt artifact's version. */
  lemma LiveComplete(ps: seq<Project>, fs: seq<Fold>, moves: map<Address, Address>, live: set<Address>, homes: seq<Home>,
                     done: set<Address>, a: Address)
    requires WellFormed(ps) && FoldsOk(ps, fs) && FoldsMade(ps, fs, |fs|, moves, live, homes, done)
    requires forall h :: h in homes ==> HomeTrue(ps, fs, h) && HomeMade(ps, fs, h, moves, live, done)
    requires Live(ps, a) && FoldTarget(ps, fs, a) != a && Live(Folded(ps, fs), a)
    ensures a in live
  {
    assert !a.ProjectAt?;
    hide WellFormed, FoldsOk, HomeTrue, HomeMade, FoldMade, Settled, FoldTarget, Folded, TakenFrom, ClaimingFold;
    FoldedLookup(ps, fs, a.p, a.n);
    match ClaimingFold(fs, a.p, a.n) {
      case Some(f) =>
        var j :| 0 <= j < |fs| && fs[j] == f;
      case None =>
        var h := TakenHome(ps, fs, moves, live, homes, done, a.p, a.n);
    }
  }

  lemma AllSettled(ps: seq<Project>, fs: seq<Fold>, moves: map<Address, Address>, live: set<Address>, homes: seq<Home>,
                   done: set<Address>)
    requires WellFormed(ps) && FoldsMade(ps, fs, |fs|, moves, live, homes, done)
    requires forall h :: h in homes ==> HomeMade(ps, fs, h, moves, live, done)
    ensures Staged(ps, fs, done) == Folded(ps, fs)
  {
    hide WellFormed, Ordered, Unpicked, HomeMoves, Picks, RebuildMoves, Claims, PicksFrom, TitleOnly;
    forall p, n | ClaimingFold(fs, p, n).Some? || TakenFrom(fs, p, n) ensures ArtifactAt(p, n) in done {
      if ClaimingFold(fs, p, n).Some? {
        var j :| 0 <= j < |fs| && fs[j] == ClaimingFold(fs, p, n).value;
        assert FoldMade(ps, fs, fs[j], moves, live, homes, done);
      } else {
        var h := TakenHome(ps, fs, moves, live, homes, done, p, n);
        assert HomeMade(ps, fs, h, moves, live, done);
      }
    }
    AllStaged(ps, fs, done);
  }

  /** A run that has made every fold and every home has folded the registry and recorded the moves of the folds. */
  lemma RunDone(ps: seq<Project>, fs: seq<Fold>, moves: map<Address, Address>, live: set<Address>, homes: seq<Home>,
                done: set<Address>)
    requires WellFormed(ps) && FoldsOk(ps, fs) && RecordsTrue(ps, fs, moves, live, homes)
    requires FoldsMade(ps, fs, |fs|, moves, live, homes, done)
    requires forall h :: h in homes ==> HomeMade(ps, fs, h, moves, live, done)
    ensures Staged(ps, fs, done) == Folded(ps, fs)
    ensures Moved(moves, {}) == FoldMoves(ps, fs)
    ensures Moved(moves, live) == map a | a in FoldMoves(ps, fs) && !Live(Folded(ps, fs), a) :: FoldMoves(ps, fs)[a]
  {
    hide WellFormed, FoldsOk, FoldsMade, HomeMade, HomeTrue, Live, Folded, Staged, FoldTarget;
    AllSettled(ps, fs, moves, live, homes, done);
    forall a | Live(ps, a) && FoldTarget(ps, fs, a) != a
      ensures a in moves && (Live(Folded(ps, fs), a) ==> a in live)
    {
      MovesComplete(ps, fs, moves, live, homes, done, a);
      if Live(Folded(ps, fs), a) {
        LiveComplete(ps, fs, moves, live, homes, done, a);
      }
    }
  }

  lemma {:induction false} TakingIs(fs: seq<Fold>, i: nat, p: string, n: nat)
    requires i < |fs| && PicksFrom(fs[i], p, n) && forall j :: 0 <= j < i ==> !PicksFrom(fs[j], p, n)
    ensures TakingFold(fs, p, n) == Some(fs[i])
  {
    if i > 0 {
      TakingIs(fs[1..], i - 1, p, n);
    }
  }

  lemma NextMember(f: Fold, j: nat)
    requires j < |f.members|
    ensures var x := f.members[j];
            && AllSessions(f.members[..j + 1]) == AllSessions(f.members[..j]) + x.sessions
            && AwayMoves(f.project, Keeper(f), f.members[..j + 1]) ==
               if x.number == Keeper(f) then AwayMoves(f.project, Keeper(f), f.members[..j])
               else AwayMoves(f.project, Keeper(f), f.members[..j])[ArtifactAt(f.project, x.number) := ArtifactAt(f.project, Keeper(f))]
  {
    assert f.members[..j + 1] == f.members[..j] + [f.members[j]] && f.members[..j + 1][..j] == f.members[..j];
    SessionsAppend(f.members[..j], f.members[j]);
  }

  lemma NoMembers(f: Fold)
    ensures AllSessions(f.members[..0]) == [] && AwayMoves(f.project, Keeper(f), f.members[..0]) == map[]
  {
  }

  /** Recording more undoes no fold. */
  lemma StaysMade(ps: seq<Project>, fs: seq<Fold>, i: nat, moves: map<Address, Address>, live: set<Address>, homes: seq<Home>,
                  done: set<Address>, moves': map<Address, Address>, live': set<Address>, homes': seq<Home>, done': set<Address>)
    requires i <= |fs| && FoldsMade(ps, fs, i, moves, live, homes, done)
    requires moves.Keys <= moves'.Keys && live <= live' && done <= done' && forall h :: h in homes ==> h in homes'
    ensures FoldsMade(ps, fs, i, moves', live', homes', done')
  {
    hide RebuildMoves, TitleOnly, Ordered, Claims, PicksFrom;
  }

  function NewVersions(p: string, n: nat, count: nat): set<Address>
  {
    set k: nat | 1 <= k <= count :: VersionAt(p, n, k)
  }

  function MemberAddresses(p: string, xs: seq<Artifact>): set<Address>
  {
    set x | x in xs :: ArtifactAt(p, x.number)
  }

  lemma MemberSettled(ps: seq<Project>, fs: seq<Fold>, f: Fold, j: nat)
    requires FoldsOk(ps, fs) && f in fs && j < |f.members|
    ensures var x := f.members[j];
            && Lookup(ps, f.project, x.number) == Some(x)
            && ClaimingFold(fs, f.project, x.number) == Some(f)
            && (x.number == Keeper(f) <==> j == 0)
  {
    assert FoldOk(ps, f) && f.members[j] in f.members;
    assert Claims(f, f.project, f.members[j].number);
    Claimer(ps, fs, f, f.project, f.members[j].number);
  }

  lemma MemberRemoved(ps: seq<Project>, fs: seq<Fold>, f: Fold, j: nat, done: set<Address>)
    requires WellFormed(ps) && FoldsOk(ps, fs) && f in fs && 1 <= j < |f.members|
    ensures Put(Staged(ps, fs, done + if j == 1 then {} else MemberAddresses(f.project, f.members[1..j])),
                f.project, f.members[j].number, None)
            == Staged(ps, fs, done + MemberAddresses(f.project, f.members[1..j + 1]))
  {
    hide WellFormed, FoldsOk, Staged, Put, TitleOnly, Ordered;
    var x := f.members[j];
    var away := if j == 1 then {} else MemberAddresses(f.project, f.members[1..j]);
    MemberSettled(ps, fs, f, j);
    PutSettles(ps, fs, done + away, f.project, x.number);
    assert f.members[1..j + 1] == f.members[1..j] + [x];
    assert done + away + {ArtifactAt(f.project, x.number)} == done + MemberAddresses(f.project, f.members[1..j + 1]);
  }

  /** Some other group lists a version of `x` on its own. */
  predicate ListedElsewhere(fs: seq<Fold>, f: Fold, x: Artifact)
  {
    exists g, pick :: g in fs && pick in g.picked && g.project == f.project && pick.artifact.number == x.number && g.title != f.title
  }

  lemma ListedAway(ps: seq<Project>, fs: seq<Fold>, f: Fold)
    requires FoldsOk(ps, fs) && f in fs
    ensures (exists j :: 1 <= j < |f.members| && ListedElsewhere(fs, f, f.members[j])) <==>
            FoldError(fs, f) == Some(FoldedAwayButListed)
  {
    forall j | 0 <= j < |f.members| ensures f.members[j].number == Keeper(f) <==> j == 0 {
      MemberSettled(ps, fs, f, j);
    }
    hide FoldsOk, Keeper, FoldError, ListedElsewhere;
    if x :| x in f.members && x.number != Keeper(f) && ListedElsewhere(fs, f, x) {
      var j :| 0 <= j < |f.members| && f.members[j] == x;
    }
    if j :| 1 <= j < |f.members| && ListedElsewhere(fs, f, f.members[j]) {
      assert f.members[j] in f.members;
    }
  }

  predicate HasHome(homes: seq<Home>, p: string, n: nat)
  {
    exists h :: h in homes && h.project == p && h.source.number == n
  }

  lemma HomeAdded(homes: seq<Home>, h: Home)
    ensures forall p, n :: HasHome(homes, p, n) ==> HasHome(homes + [h], p, n)
    ensures HasHome(homes + [h], h.project, h.source.number)
  {
  }

  lemma FirstHome(ps: seq<Project>, fs: seq<Fold>, i: nat, m: nat, homes: seq<Home>)
    requires FoldsOk(ps, fs) && i < |fs| && m < |fs[i].picked|
    requires forall j, p, n :: 0 <= j < i && PicksFrom(fs[j], p, n) ==> HasHome(homes, p, n)
    requires !HasHome(homes, fs[i].project, fs[i].picked[m].artifact.number)
    ensures HomeTrue(ps, fs, Home(fs[i].project, fs[i].picked[m].artifact, Keeper(fs[i])))
  {
    var f := fs[i];
    var pick := f.picked[m];
    assert pick in f.picked && FoldOk(ps, f);
    assert PicksFrom(f, f.project, pick.artifact.number);
    TakingIs(fs, i, f.project, pick.artifact.number);
    assert Lookup(ps, f.project, pick.artifact.number) == Some(pick.artifact);
  }

  lemma FoldHasMembers(ps: seq<Project>, fs: seq<Fold>, i: nat)
    requires FoldsOk(ps, fs) && i < |fs|
    ensures fs[i].members != []
  {
    assert FoldOk(ps, fs[i]);
  }

  lemma ErrorIs(fs: seq<Fold>, f: Fold)
    requires FoldError(fs, f) != Some(FoldedAwayButListed)
    ensures FoldError(fs, f) == if !TitleOnly(fs, f) && Ordered(fs, f) == [] then Some(NothingLeft) else None
  {
  }

  lemma AllMembers(fs: seq<Fold>, f: Fold, done: set<Address>)
    requires f.members != []
    ensures done + (if |f.members| <= 1 then {} else MemberAddresses(f.project, f.members[1..])) + {ArtifactAt(f.project, Keeper(f))}
            == done + MemberAddresses(f.project, f.members)
  {
    assert f.members == [f.members[0]] + f.members[1..];
  }

  /** Putting the keeper in its place settles the last of a fold's members. */
  lemma KeeperPut(ps: seq<Project>, fs: seq<Fold>, f: Fold, done: set<Address>)
    requires WellFormed(ps) && FoldsOk(ps, fs) && f in fs && f.members != []
    ensures var x := f.members[0];
            var y := if TitleOnly(fs, f) then x.(title := f.title)
                     else x.(title := f.title, sessions := AllSessions(f.members),
                             versions := Resequenced(Ordered(fs, f)), current := |Ordered(fs, f)|);
            Put(Staged(ps, fs, done + if |f.members| <= 1 then {} else MemberAddresses(f.project, f.members[1..])),
                f.project, x.number, Some(y))
            == Staged(ps, fs, done + MemberAddresses(f.project, f.members))
  {
    hide WellFormed, FoldsOk, Staged, Put, TitleOnly, Ordered, MemberAddresses;
    var away := if |f.members| <= 1 then {} else MemberAddresses(f.project, f.members[1..]);
    MemberSettled(ps, fs, f, 0);
    PutSettles(ps, fs, done + away, f.project, f.members[0].number);
    AllMembers(fs, f, done);
  }

  lemma TitlePut(ps: seq<Project>, fs: seq<Fold>, f: Fold, done: set<Address>)
    requires WellFormed(ps) && FoldsOk(ps, fs) && f in fs && TitleOnly(fs, f)
    ensures Put(Staged(ps, fs, done), f.project, f.members[0].number, Some(f.members[0].(title := f.title)))
            == Staged(ps, fs, done + MemberAddresses(f.project, f.members))
  {
    assert |f.members| == 1;
    hide WellFormed, FoldsOk, Staged, Put, Ordered, MemberAddresses;
    KeeperPut(ps, fs, f, done);
    assert done + {} == done;
  }

  lemma EarlierHomes(ps: seq<Project>, fs: seq<Fold>, i: nat, moves: map<Address, Address>, live: set<Address>, homes: seq<Home>,
                     done: set<Address>)
    requires i <= |fs| && FoldsMade(ps, fs, i, moves, live, homes, done)
    ensures forall j, p, n :: 0 <= j < i && PicksFrom(fs[j], p, n) ==> HasHome(homes, p, n)
  {
    hide RebuildMoves, TitleOnly, Ordered, Claims, PicksFrom, HasHome;
    forall j, p, n | 0 <= j < i && PicksFrom(fs[j], p, n) ensures HasHome(homes, p, n) {
      assert FoldMade(ps, fs, fs[j], moves, live, homes, done);
    }
  }

  lemma TitleMade(ps: seq<Project>, fs: seq<Fold>, i: nat, moves: map<Address, Address>, live: set<Address>, homes: seq<Home>,
                  done: set<Address>)
    requires i < |fs| && TitleOnly(fs, fs[i]) && FoldsMade(ps, fs, i, moves, live, homes, done)
    ensures FoldsMade(ps, fs, i + 1, moves, live, homes, done + MemberAddresses(fs[i].project, fs[i].members))
  {
    var f := fs[i];
    var more := done + MemberAddresses(f.project, f.members);
    StaysMade(ps, fs, i, moves, live, homes, done, moves, live, homes, more);
    assert FoldMade(ps, fs, f, moves, live, homes, more);
  }

  lemma KeeperVersionsLive(ps: seq<Project>, fs: seq<Fold>, f: Fold, b: Address)
    requires WellFormed(ps) && FoldsOk(ps, fs) && f in fs && !TitleOnly(fs, f)
    requires b in NewVersions(f.project, Keeper(f), |Ordered(fs, f)|)
    ensures IsVersion(Folded(ps, fs), b)
  {
    hide WellFormed, FoldsOk, Folded, Ordered, TitleOnly;
    KeeperRebuilt(ps, fs, f);
  }

  lemma RebuildMade(ps: seq<Project>, fs: seq<Fold>, i: nat, moves: map<Address, Address>, live: set<Address>, homes: seq<Home>,
                    done: set<Address>, homes': seq<Home>)
    requires WellFormed(ps) && FoldsOk(ps, fs) && i < |fs| && !TitleOnly(fs, fs[i])
    requires RecordsTrue(ps, fs, moves, live, homes) && FoldsMade(ps, fs, i, moves, live, homes, done)
    requires forall h :: h in homes ==> h in homes'
    requires forall h :: h in homes' ==> HomeTrue(ps, fs, h)
    requires forall p, n :: PicksFrom(fs[i], p, n) ==> HasHome(homes', p, n)
    ensures var f := fs[i];
            var moves' := moves + RebuildMoves(fs, f);
            var live' := live + NewVersions(f.project, Keeper(f), |Ordered(fs, f)|);
            && RecordsTrue(ps, fs, moves', live', homes')
            && FoldsMade(ps, fs, i + 1, moves', live', homes', done + MemberAddresses(f.project, f.members))
  {
    hide WellFormed, FoldsOk, Ordered, RebuildMoves, Picks, PicksFrom, HasHome, HomeTrue, TitleOnly, IsVersion,
      Folded, FoldTarget, Live;
    var f := fs[i];
    var moves', live' := moves + RebuildMoves(fs, f), live + NewVersions(f.project, Keeper(f), |Ordered(fs, f)|);
    var more := done + MemberAddresses(f.project, f.members);
    forall a | a in RebuildMoves(fs, f) ensures Live(ps, a) && RebuildMoves(fs, f)[a] == FoldTarget(ps, fs, a) {
      RebuildMoveOf(ps, fs, f, a);
    }
    forall b | b in NewVersions(f.project, Keeper(f), |Ordered(fs, f)|) ensures IsVersion(Folded(ps, fs), b) {
      KeeperVersionsLive(ps, fs, f, b);
    }
    StaysMade(ps, fs, i, moves, live, homes, done, moves', live', homes', more);
    assert FoldMade(ps, fs, f, moves', live', homes', more);
  }

  lemma NothingRecorded(ps: seq<Project>, fs: seq<Fold>)
    ensures RecordsTrue(ps, fs, map[], {}, []) && FoldsMade(ps, fs, 0, map[], {}, [], {})
  {
  }

  lemma TrueHome(ps: seq<Project>, fs: seq<Fold>, moves: map<Address, Address>, live: set<Address>, homes: seq<Home>, j: nat)
    requires RecordsTrue(ps, fs, moves, live, homes) && j < |homes|
    ensures HomeTrue(ps, fs, homes[j])
  {
  }

  lemma HomeStaysMade(ps: seq<Project>, fs: seq<Fold>, h: Home, moves: map<Address, Address>, live: set<Address>, done: set<Address>,
                      moves': map<Address, Address>, live': set<Address>, done': set<Address>)
    requires HomeMade(ps, fs, h, moves, live, done)
    requires moves.Keys <= moves'.Keys && live <= live' && done <= done'
    ensures HomeMade(ps, fs, h, moves', live', done')
  {
    hide HomeMoves, Unpicked, ClaimingFold;
  }

  lemma SettledVersionLive(ps: seq<Project>, fs: seq<Fold>, h: Home, b: Address)
    requires WellFormed(ps) && HomeTrue(ps, fs, h) && ClaimingFold(fs, h.project, h.source.number).None?
    requires b in NewVersions(h.project, h.source.number, |Unpicked(fs, h.project, h.source)|)
    ensures IsVersion(Folded(ps, fs), b)
  {
    FoldedLookup(ps, fs, h.project, h.source.number);
  }

  lemma HomeRecords(ps: seq<Project>, fs: seq<Fold>, h: Home, homes: seq<Home>, moves: map<Address, Address>, live: set<Address>)
    requires WellFormed(ps) && h in homes && RecordsTrue(ps, fs, moves, live, homes)
    requires ClaimingFold(fs, h.project, h.source.number).None?
    ensures RecordsTrue(ps, fs, moves + HomeMoves(fs, h),
                        live + NewVersions(h.project, h.source.number, |Unpicked(fs, h.project, h.source)|), homes)
  {
    hide WellFormed, HomeMoves, Unpicked, HomeTrue, FoldTarget, IsVersion, Folded, Live, ClaimingFold, NewVersions;
    forall a | a in HomeMoves(fs, h) ensures Live(ps, a) && HomeMoves(fs, h)[a] == FoldTarget(ps, fs, a) {
      HomeMoveOf(ps, fs, h, a);
    }
    forall b | b in NewVersions(h.project, h.source.number, |Unpicked(fs, h.project, h.source)|)
      ensures IsVersion(Folded(ps, fs), b)
    {
      SettledVersionLive(ps, fs, h, b);
    }
  }

  lemma HomeSettled(ps: seq<Project>, fs: seq<Fold>, j: nat, homes: seq<Home>, moves: map<Address, Address>, live: set<Address>,
                    done: set<Address>, moves': map<Address, Address>, live': set<Address>, done': set<Address>)
    requires WellFormed(ps) && j < |homes| && done <= done'
    requires RecordsTrue(ps, fs, moves, live, homes) && FoldsMade(ps, fs, |fs|, moves, live, homes, done)
    requires forall m :: 0 <= m < j ==> HomeMade(ps, fs, homes[m], moves, live, done)
    requires var h := homes[j];
             if ClaimingFold(fs, h.project, h.source.number).Some? then moves' == moves && live' == live
             else moves' == moves + HomeMoves(fs, h)
                  && live' == live + NewVersions(h.project, h.source.number, |Unpicked(fs, h.project, h.source)|)
                  && ArtifactAt(h.project, h.source.number) in done'
    ensures RecordsTrue(ps, fs, moves', live', homes) && FoldsMade(ps, fs, |fs|, moves', live', homes, done')
    ensures forall m :: 0 <= m <= j ==> HomeMade(ps, fs, homes[m], moves', live', done')
  {
    var h := homes[j];
    assert HomeMade(ps, fs, h, moves', live', done') by {
      hide HomeMoves, Unpicked, ClaimingFold;
    }
    hide WellFormed, FoldsMade, HomeMoves, Unpicked, RecordsTrue, ClaimingFold, HomeMade, NewVersions;
    StaysMade(ps, fs, |fs|, moves, live, homes, done, moves', live', homes, done');
    forall m | 0 <= m < j ensures HomeMade(ps, fs, homes[m], moves', live', done') {
      HomeStaysMade(ps, fs, homes[m], moves, live, done, moves', live', done');
    }
    if ClaimingFold(fs, h.project, h.source.number).None? {
      HomeRecords(ps, fs, h, homes, moves, live);
    }
  }

  class FoldRun {
    const updated: RegistryDocuments.RegistryDocument
    var moves: map<Address, Address>
    var live: set<Address>
    var homes: seq<Home>

    constructor (updated: RegistryDocuments.RegistryDocument)
      ensures this.updated == updated && moves == map[] && live == {} && homes == []
    {
      this.updated := updated;
      moves, live, homes := map[], {}, [];
    }

    /** Give the versions of `rows` new numbers in artifact `to`. */
    method Rekey(p: string, to: nat, rows: seq<Row>)
      modifies this`moves, this`live
      ensures moves == old(moves) + RowMoves(p, to, rows)
      ensures live == old(live) + NewVersions(p, to, |rows|)
    {
      for k := 0 to |rows|
        invariant moves == old(moves) + RowMoves(p, to, rows[..k]) && live == old(live)
      {
        assert rows[..k + 1][..k] == rows[..k] && rows[..k + 1][k] == rows[k];
        moves := moves[VersionAt(p, rows[k].n, rows[k].k) := VersionAt(p, to, k + 1)];
      }
      assert rows[..|rows|] == rows;
      live := live + NewVersions(p, to, |rows|);
    }

    /** Remove the members that are folded away, gathering every member's sessions. */
    method FoldAway(ghost ps: seq<Project>, ghost fs: seq<Fold>, f: Fold, ghost done: set<Address>) returns (sessions: seq<string>)
      requires WellFormed(ps) && FoldsOk(ps, fs) && f in fs && updated.projects == Staged(ps, fs, done)
      modifies this`moves, updated`projects
      ensures sessions == AllSessions(f.members)
      ensures moves == old(moves) + AwayMoves(f.project, Keeper(f), f.members)
      ensures updated.projects == Staged(ps, fs, done + if |f.members| <= 1 then {} else MemberAddresses(f.project, f.members[1..]))
    {
      hide WellFormed, FoldsOk, Staged, Put, TitleOnly, Ordered, Keeper, ClaimingFold, Lookup, MemberAddresses,
        AwayMoves, AllSessions;
      NoMembers(f);
      sessions := [];
      ghost var away: set<Address> := {};
      assert done + away == done;
      for j := 0 to |f.members|
        invariant sessions == AllSessions(f.members[..j])
        invariant moves == old(moves) + AwayMoves(f.project, Keeper(f), f.members[..j])
        invariant away == if j <= 1 then {} else MemberAddresses(f.project, f.members[1..j])
        invariant updated.projects == Staged(ps, fs, done + away)
      {
        var x := f.members[j];
        MemberSettled(ps, fs, f, j);
        NextMember(f, j);
        sessions := sessions + x.sessions;
        if x.number != Keeper(f) {
          MemberRemoved(ps, fs, f, j, done);
          away := MemberAddresses(f.project, f.members[1..j + 1]);
          moves := moves[ArtifactAt(f.project, x.number) := ArtifactAt(f.project, Keeper(f))];
          updated.projects := Put(updated.projects, f.project, x.number, None);
        }
      }
      assert f.members[..|f.members|] == f.members;
    }

    /** Note where the sources of the picked versions go if nothing is left of them. */
    method AddHomes(ghost ps: seq<Project>, ghost fs: seq<Fold>, ghost i: nat, f: Fold)
      requires FoldsOk(ps, fs) && i < |fs| && f == fs[i]
      requires forall h :: h in homes ==> HomeTrue(ps, fs, h)
      requires forall j, p, n :: 0 <= j < i && PicksFrom(fs[j], p, n) ==> HasHome(homes, p, n)
      modifies this`homes
      ensures forall h :: h in homes ==> HomeTrue(ps, fs, h)
      ensures forall h :: h in old(homes) ==> h in homes
      ensures forall p, n :: PicksFrom(f, p, n) ==> HasHome(homes, p, n)
    {
      for m := 0 to |f.picked|
        invariant forall h :: h in homes ==> HomeTrue(ps, fs, h)
        invariant forall h :: h in old(homes) ==> h in homes
        invariant forall j, p, n :: 0 <= j < i && PicksFrom(fs[j], p, n) ==> HasHome(homes, p, n)
        invariant forall pick :: pick in f.picked[..m] ==> HasHome(homes, f.project, pick.artifact.number)
      {
        hide FoldsOk, HomeTrue, PicksFrom, HasHome;
        var source := f.picked[m].artifact;
        if !HasHome(homes, f.project, source.number) {
          FirstHome(ps, fs, i, m, homes);
          HomeAdded(homes, Home(f.project, source, Keeper(f)));
          homes := homes + [Home(f.project, source, Keeper(f))];
        }
        assert f.picked[..m + 1] == f.picked[..m] + [f.picked[m]];
      }
      assert f.picked[..|f.picked|] == f.picked;
    }

    /** Make one fold: a new title, or a rebuilt keeper in place of the members. */
    method FoldGroup(ghost ps: seq<Project>, fs: seq<Fold>, i: nat, ghost done: set<Address>)
      returns (failure: Option<PlanError>, ghost more: set<Address>)
      requires WellFormed(ps) && FoldsOk(ps, fs) && i < |fs|
      requires updated.projects == Staged(ps, fs, done)
      requires RecordsTrue(ps, fs, moves, live, homes) && FoldsMade(ps, fs, i, moves, live, homes, done)
      modifies this, updated`projects
      ensures failure == FoldError(fs, fs[i])
      ensures failure == None ==>
                && updated.projects == Staged(ps, fs, more)
                && RecordsTrue(ps, fs, moves, live, homes) && FoldsMade(ps, fs, i + 1, moves, live, homes, more)
    {
      hide WellFormed, FoldsOk, Staged, Put, TitleOnly, Ordered, FoldError, ListedElsewhere, FoldMade,
        MemberAddresses, AllSessions, RowMoves, AwayMoves, NewVersions, HomeTrue, PicksFrom, FoldTarget, Live,
        IsVersion, Folded;
      var f := fs[i];
      more := done + MemberAddresses(f.project, f.members);
      FoldHasMembers(ps, fs, i);
      ListedAway(ps, fs, f);
      for j := 1 to |f.members|
        invariant forall m :: 1 <= m < j ==> !ListedElsewhere(fs, f, f.members[m])
      {
        if ListedElsewhere(fs, f, f.members[j]) {
          return Some(FoldedAwayButListed), more;
        }
      }
      ErrorIs(fs, f);
      failure := None;
      var keeper, ordered := f.members[0], Ordered(fs, f);
      if TitleOnly(fs, f) {
        TitleMade(ps, fs, i, moves, live, homes, done);
        TitlePut(ps, fs, f, done);
        updated.projects := Put(updated.projects, f.project, keeper.number, Some(keeper.(title := f.title)));
        return;
      }
      if ordered == [] {
        return Some(NothingLeft), more;
      }
      ghost var moves0, live0, homes0 := moves, live, homes;
      Rekey(f.project, keeper.number, ordered);
      var sessions := FoldAway(ps, fs, f, done);
      assert moves == moves0 + RebuildMoves(fs, f);
      EarlierHomes(ps, fs, i, moves0, live0, homes, done);
      AddHomes(ps, fs, i, f);
      KeeperPut(ps, fs, f, done);
      updated.projects := Put(updated.projects, f.project, keeper.number,
        Some(keeper.(title := f.title, sessions := sessions, versions := Resequenced(ordered), current := |ordered|)));
      RebuildMade(ps, fs, i, moves0, live0, homes0, done, homes);
    }

    /** Renumber what is left of an unclaimed source, or remove it if nothing is. */
    method SettleHome(ghost ps: seq<Project>, fs: seq<Fold>, h: Home, ghost done: set<Address>) returns (ghost more: set<Address>)
      requires WellFormed(ps) && FoldsOk(ps, fs) && HomeTrue(ps, fs, h) && updated.projects == Staged(ps, fs, done)
      modifies this`moves, this`live, updated`projects
      ensures updated.projects == Staged(ps, fs, more) && done <= more
      ensures ClaimingFold(fs, h.project, h.source.number).Some? ==> moves == old(moves) && live == old(live)
      ensures ClaimingFold(fs, h.project, h.source.number).None? ==>
                && moves == old(moves) + HomeMoves(fs, h)
                && live == old(live) + NewVersions(h.project, h.source.number, |Unpicked(fs, h.project, h.source)|)
                && ArtifactAt(h.project, h.source.number) in more
    {
      hide WellFormed, FoldsOk, Staged, Put, Unpicked, RowMoves;
      more := done;
      if ClaimingFold(fs, h.project, h.source.number).Some? {
        return;
      }
      PutSettles(ps, fs, done, h.project, h.source.number);
      more := done + {ArtifactAt(h.project, h.source.number)};
      var rest := Unpicked(fs, h.project, h.source);
      if rest == [] {
        moves := moves[ArtifactAt(h.project, h.source.number) := ArtifactAt(h.project, h.keeper)];
        updated.projects := Put(updated.projects, h.project, h.source.number, None);
      } else {
        Rekey(h.project, h.source.number, rest);
        updated.projects := Put(updated.projects, h.project, h.source.number,
          Some(h.source.(versions := Resequenced(rest), current := |rest|)));
      }
    }

    /** Make every fold, then settle every source. */
    method ApplyFolds(fs: seq<Fold>) returns (failure: Option<PlanError>)
      requires WellFormed(updated.projects) && FoldsOk(updated.projects, fs)
      requires moves == map[] && live == {} && homes == []
      modifies this, updated`projects
      ensures failure == FirstError(fs, fs)
      ensures failure == None ==>
                && updated.projects == Folded(old(updated.projects), fs)
                && Moved(moves, {}) == FoldMoves(old(updated.projects), fs)
                && Moved(moves, live) == map a | a in FoldMoves(old(updated.projects), fs) && !Live(updated.projects, a)
                                         :: FoldMoves(old(updated.projects), fs)[a]
    {
      hide WellFormed, FoldsOk, Staged, RecordsTrue, FoldsMade, HomeMade, FoldError, HomeMoves, HomeTrue, FoldMoves,
        Folded, Moved;
      ghost var ps, done: set<Address> := updated.projects, {};
      NothingStaged(ps, fs, done);
      NothingRecorded(ps, fs);
      for i := 0 to |fs|
        invariant updated.projects == Staged(ps, fs, done)
        invariant RecordsTrue(ps, fs, moves, live, homes) && FoldsMade(ps, fs, i, moves, live, homes, done)
        invariant FirstError(fs, fs[i..]) == FirstError(fs, fs)
      {
        assert fs[i..][1..] == fs[i + 1..];
        failure, done := FoldGroup(ps, fs, i, done);
        if failure != None {
          return;
        }
      }
      var sources := homes;
      for j := 0 to |sources|
        invariant homes == sources
        invariant updated.projects == Staged(ps, fs, done)
        invariant RecordsTrue(ps, fs, moves, live, homes) && FoldsMade(ps, fs, |fs|, moves, live, homes, done)
        invariant forall m :: 0 <= m < j ==> HomeMade(ps, fs, sources[m], moves, live, done)
      {
        TrueHome(ps, fs, moves, live, homes, j);
        ghost var moves0, live0, done0 := moves, live, done;
        done := SettleHome(ps, fs, sources[j], done);
        HomeSettled(ps, fs, j, homes, moves0, live0, done0, moves, live, done);
      }
      RunDone(ps, fs, moves, live, homes, done);
      failure := None;
    }
  }
}

/** The second stage of grouping: artifacts are folded into one, single versions are moved between artifacts, and
    every artifact touched has its versions put in date order. */
module Fold {
  import opened Basics
  import opened Sorting
  import opened Registry
  import AddressMaps
  import opened Resolution
  import opened Merge

  datatype Ref = Number(n: nat) | Named(a: Address)

  datatype Group = Group(project: string, title: string, refs: seq<Ref>)

  /** Version `k` of `artifact`, listed on its own. */
  datatype Pick = Pick(artifact: Artifact, k: nat)

  /** A resolved group: the artifacts to fold into the first of them, by number, and the versions to move there. */
  datatype Fold = Fold(project: string, title: string, members: seq<Artifact>, picked: seq<Pick>)

  // Resolving the groups of a plan.

  datatype Gathered = Gathered(claimed: map<Address, string>, picks: map<Address, string>,
                                 members: seq<Artifact>, picked: seq<Pick>)

  function RefAddress(project: string, ref: Ref): Address
  {
    match ref
    case Number(n) => ArtifactAt(project, n)
    case Named(a) => a
  }

  /** References that lead nowhere, or out of the project, are skipped. */
  function GatherRef(r: Registry, g: Group, s: Gathered, ref: Ref): Result<Gathered, PlanError>
  {
    match Resolve(r, RefAddress(g.project, ref))
    case Err(_) => Ok(s)
    case Ok(Place(owner, x, k)) =>
      var version, artifact := VersionAt(g.project, x.number, k), ArtifactAt(g.project, x.number);
      if owner.id != g.project then Ok(s)
      else if k > 0 then
        if version in s.picks then Err(VersionListedTwice)
        else Ok(s.(picks := s.picks[version := g.title], picked := s.picked + [Pick(x, k)]))
      else if artifact in s.claimed && s.claimed[artifact] != g.title then Ok(s)
      else Ok(s.(claimed := s.claimed[artifact := g.title],
                 members := if x in s.members then s.members else s.members + [x]))
  }

  function GatherRefs(r: Registry, g: Group, s: Gathered, refs: seq<Ref>): Result<Gathered, PlanError>
    decreases |refs|
  {
    if refs == [] then Ok(s)
    else
      match GatherRef(r, g, s, refs[0])
      case Err(e) => Err(e)
      case Ok(s') => GatherRefs(r, g, s', refs[1..])
  }

  function GatherGroups(r: Registry, s: Gathered, folds: seq<Fold>, groups: seq<Group>): Result<seq<Fold>, PlanError>
    decreases |groups|
  {
    if groups == [] then Ok(folds)
    else
      var g := groups[0];
      if FindProject(r.projects, g.project).None? then GatherGroups(r, s, folds, groups[1..])
      else
        match GatherRefs(r, g, s.(members := [], picked := []), g.refs)
        case Err(e) => Err(e)
        case Ok(s') =>
          if s'.picked != [] && s'.members == [] then Err(VersionsWithoutArtifact)
          else
            var added := if s'.members == [] then [] else [Fold(g.project, g.title, ByNumber(s'.members), s'.picked)];
            GatherGroups(r, s', folds + added, groups[1..])
  }

  function Folds(r: Registry, groups: seq<Group>): Result<seq<Fold>, PlanError>
  {
    GatherGroups(r, Gathered(map[], map[], [], []), [], groups)
  }

  // What a list of folds says of an artifact or a version.

  predicate Claims(f: Fold, p: string, n: nat)
  {
    f.project == p && PositionOf(f.members, n) < |f.members|
  }

  predicate Picks(f: Fold, p: string, n: nat, k: nat)
  {
    f.project == p && exists pick :: pick in f.picked && pick.artifact.number == n && pick.k == k
  }

  predicate PicksFrom(f: Fold, p: string, n: nat)
  {
    f.project == p && exists pick :: pick in f.picked && pick.artifact.number == n
  }

  function ClaimingFold(fs: seq<Fold>, p: string, n: nat): (r: Option<Fold>)
    ensures r.Some? ==> r.value in fs && Claims(r.value, p, n)
    ensures r.None? ==> forall f :: f in fs ==> !Claims(f, p, n)
  {
    if fs == [] then None
    else if Claims(fs[0], p, n) then Some(fs[0])
    else ClaimingFold(fs[1..], p, n)
  }

  function PickingFold(fs: seq<Fold>, p: string, n: nat, k: nat): (r: Option<Fold>)
    ensures r.Some? ==> r.value in fs && Picks(r.value, p, n, k)
    ensures r.None? ==> forall f :: f in fs ==> !Picks(f, p, n, k)
  {
    if fs == [] then None
    else if Picks(fs[0], p, n, k) then Some(fs[0])
    else PickingFold(fs[1..], p, n, k)
  }

  /** The first fold that takes a version of artifact `n`. */
  function TakingFold(fs: seq<Fold>, p: string, n: nat): (r: Option<Fold>)
    ensures r.Some? ==> r.value in fs && PicksFrom(r.value, p, n)
    ensures r.None? ==> forall f :: f in fs ==> !PicksFrom(f, p, n)
  {
    if fs == [] then None
    else if PicksFrom(fs[0], p, n) then Some(fs[0])
    else TakingFold(fs[1..], p, n)
  }

  // The versions of a folded artifact.

  datatype Row = Row(n: nat, k: nat, version: Version)

  function RowKey(row: Row): Key
  {
    Key(row.version.date, row.n, row.k)
  }

  /** The versions of `x` that no fold lists on their own. */
  function Unpicked(fs: seq<Fold>, p: string, x: Artifact): seq<Row>
  {
    FilterMap((v: Version) =>
      if PickingFold(fs, p, x.number, v.number).Some? then None else Some(Row(x.number, v.number, v)), x.versions)
  }

  function MemberRows(fs: seq<Fold>, p: string, xs: seq<Artifact>): seq<Row>
  {
    if xs == [] then [] else Unpicked(fs, p, xs[0]) + MemberRows(fs, p, xs[1..])
  }

  function PickRow(pick: Pick): Option<Row>
  {
    if 1 <= pick.k <= |pick.artifact.versions| then
      Some(Row(pick.artifact.number, pick.artifact.versions[pick.k - 1].number, pick.artifact.versions[pick.k - 1]))
    else None
  }

  function PickedRows(picked: seq<Pick>): seq<Row>
  {
    FilterMap((pick: Pick) => PickRow(pick), picked)
  }

  function Ordered(fs: seq<Fold>, f: Fold): seq<Row>
  {
    SortBy(RowKey, MemberRows(fs, f.project, f.members) + PickedRows(f.picked))
  }

  function Resequenced(rows: seq<Row>): (vs: seq<Version>)
    ensures |vs| == |rows|
    ensures forall i :: 0 <= i < |rows| ==> vs[i] == rows[i].version.(number := i + 1)
  {
    seq(|rows|, i requires 0 <= i < |rows| => rows[i].version.(number := i + 1))
  }

  function RowPlace(rows: seq<Row>, n: nat, k: nat): (i: nat)
    ensures i <= |rows|
    ensures i < |rows| ==> rows[i].n == n && rows[i].k == k
    ensures i == |rows| ==> forall row :: row in rows ==> row.n != n || row.k != k
  {
    if rows == [] then 0
    else if rows[0].n == n && rows[0].k == k then 0
    else 1 + RowPlace(rows[1..], n, k)
  }

  function AllSessions(xs: seq<Artifact>): seq<string>
  {
    if xs == [] then [] else xs[0].sessions + AllSessions(xs[1..])
  }

  lemma {:induction false} SessionsAppend(xs: seq<Artifact>, x: Artifact)
    ensures AllSessions(xs + [x]) == AllSessions(xs) + x.sessions
  {
    if xs == [] {
      assert [x][1..] == [] && xs + [x] == [x];
    } else {
      assert (xs + [x])[1..] == xs[1..] + [x];
      SessionsAppend(xs[1..], x);
    }
  }

  predicate TakenFrom(fs: seq<Fold>, p: string, n: nat)
  {
    TakingFold(fs, p, n).Some?
  }

  /** A fold of one artifact that gains and loses no version changes its title only. */
  predicate TitleOnly(fs: seq<Fold>, f: Fold)
  {
    |f.members| == 1 && f.picked == [] && !TakenFrom(fs, f.project, f.members[0].number)
  }

  function Keeper(f: Fold): nat
  {
    if f.members == [] then 0 else f.members[0].number
  }

  /** What becomes of artifact `x` of project `p`. */
  function Settled(fs: seq<Fold>, p: string, x: Artifact): Option<Artifact>
  {
    match ClaimingFold(fs, p, x.number)
    case Some(f) =>
      if x.number != Keeper(f) then None
      else if TitleOnly(fs, f) then Some(x.(title := f.title))
      else Some(x.(title := f.title, sessions := AllSessions(f.members),
                   versions := Resequenced(Ordered(fs, f)), current := |Ordered(fs, f)|))
    case None =>
      var rest := Unpicked(fs, p, x);
      if !TakenFrom(fs, p, x.number) then Some(x)
      else if rest == [] then None
      else Some(x.(versions := Resequenced(rest), current := |rest|))
  }

  function SettledProject(fs: seq<Fold>, p: Project): Project
  {
    p.(artifacts := FilterMap((x: Artifact) => Settled(fs, p.id, x), p.artifacts))
  }

  function Folded(ps: seq<Project>, fs: seq<Fold>): seq<Project>
  {
    FilterMap((p: Project) => Some(SettledProject(fs, p)), ps)
  }

  // Where the folds move each address.

  function FoldTarget(ps: seq<Project>, fs: seq<Fold>, a: Address): Address
  {
    match a
    case ProjectAt(_) => a
    case ArtifactAt(p, n) =>
      (match ClaimingFold(fs, p, n)
       case Some(f) => ArtifactAt(p, Keeper(f))
       case None =>
         match (TakingFold(fs, p, n), Lookup(ps, p, n))
         case (Some(f), Some(x)) => if Unpicked(fs, p, x) == [] then ArtifactAt(p, Keeper(f)) else a
         case _ => a)
    case VersionAt(p, n, k) =>
      match PickingFold(fs, p, n, k)
      case Some(f) => VersionAt(p, Keeper(f), RowPlace(Ordered(fs, f), n, k) + 1)
      case None =>
        match ClaimingFold(fs, p, n)
        case Some(f) => if TitleOnly(fs, f) then a else VersionAt(p, Keeper(f), RowPlace(Ordered(fs, f), n, k) + 1)
        case None =>
          if !TakenFrom(fs, p, n) || Lookup(ps, p, n).None? then a
          else VersionAt(p, n, RowPlace(Unpicked(fs, p, Lookup(ps, p, n).value), n, k) + 1)
  }

  function FoldMoves(ps: seq<Project>, fs: seq<Fold>): map<Address, Address>
  {
    AddressMaps.Moves(ps, a => FoldTarget(ps, fs, a))
  }

  /** Why a fold cannot be made. */
  function FoldError(fs: seq<Fold>, f: Fold): Option<PlanError>
  {
    if exists x, g, pick :: x in f.members && x.number != Keeper(f) && g in fs && pick in g.picked
         && g.project == f.project && pick.artifact.number == x.number && g.title != f.title
    then Some(FoldedAwayButListed)
    else if !TitleOnly(fs, f) && Ordered(fs, f) == [] then Some(NothingLeft)
    else None
  }

  function FirstError(fs: seq<Fold>, rest: seq<Fold>): Option<PlanError>
  {
    if rest == [] then None
    else if FoldError(fs, rest[0]).Some? then FoldError(fs, rest[0])
    else FirstError(fs, rest[1..])
  }

  // Folds that make sense for a registry.

  ghost predicate FoldOk(ps: seq<Project>, f: Fold)
  {
    && f.members != []
    && DistinctNumbers(f.members)
    && (forall x :: x in f.members ==> Lookup(ps, f.project, x.number) == Some(x))
    && Distinct(f.picked)
    && forall pick :: pick in f.picked ==>
         Lookup(ps, f.project, pick.artifact.number) == Some(pick.artifact) && 1 <= pick.k <= |pick.artifact.versions|
  }

  /** No artifact is folded twice and no version is moved twice. */
  ghost predicate Apart(f: Fold, g: Fold)
  {
    && (forall p, n :: Claims(f, p, n) ==> !Claims(g, p, n))
    && forall p, n, k :: Picks(f, p, n, k) ==> !Picks(g, p, n, k)
  }

  ghost predicate FoldsOk(ps: seq<Project>, fs: seq<Fold>)
  {
    && (forall f :: f in fs ==> FoldOk(ps, f))
    && forall i, j :: 0 <= i < j < |fs| ==> Apart(fs[i], fs[j])
  }

  /** Every fold can be made, and no fold takes a version of an artifact that another folds away. */
  ghost predicate Foldable(fs: seq<Fold>)
  {
    && (forall f :: f in fs ==> TitleOnly(fs, f) || Ordered(fs, f) != [])
    && forall f, p, n, k :: f in fs && Claims(f, p, n) && n != Keeper(f) && PickingFold(fs, p, n, k).Some? ==>
         PickingFold(fs, p, n, k) == Some(f)
  }

  lemma Claimer(ps: seq<Project>, fs: seq<Fold>, f: Fold, p: string, n: nat)
    requires FoldsOk(ps, fs) && f in fs && Claims(f, p, n)
    ensures ClaimingFold(fs, p, n) == Some(f)
  {
    var i :| 0 <= i < |fs| && fs[i] == f;
  }

  lemma Picker(ps: seq<Project>, fs: seq<Fold>, f: Fold, p: string, n: nat, k: nat)
    requires FoldsOk(ps, fs) && f in fs && Picks(f, p, n, k)
    ensures PickingFold(fs, p, n, k) == Some(f)
  {
    var i :| 0 <= i < |fs| && fs[i] == f;
  }

  // The rows of a fold.

  /** A row is the version its numbers name. */
  ghost predicate TrueRow(ps: seq<Project>, p: string, row: Row)
  {
    match Lookup(ps, p, row.n)
    case None => false
    case Some(x) => 1 <= row.k <= |x.versions| && row.version == x.versions[row.k - 1]
  }

  lemma UnpickedMember(fs: seq<Fold>, p: string, x: Artifact, row: Row)
    requires WellVersioned(x)
    ensures row in Unpicked(fs, p, x) <==>
            (row.n == x.number && 1 <= row.k <= |x.versions| && row.version == x.versions[row.k - 1]
             && PickingFold(fs, p, row.n, row.k).None?)
  {
    var g := (v: Version) =>
      if PickingFold(fs, p, x.number, v.number).Some? then None else Some(Row(x.number, v.number, v));
    FilterMembers(g, x.versions);
    if row.n == x.number && 1 <= row.k <= |x.versions| && row.version == x.versions[row.k - 1]
       && PickingFold(fs, p, row.n, row.k).None? {
      assert row.version in x.versions && g(row.version) == Some(row);
    }
    if row in Unpicked(fs, p, x) {
      var v :| v in x.versions && g(v) == Some(row);
      var i :| 0 <= i < |x.versions| && x.versions[i] == v;
    }
  }

  lemma {:induction false} MemberRow(fs: seq<Fold>, p: string, xs: seq<Artifact>, row: Row)
    ensures row in MemberRows(fs, p, xs) <==> exists x :: x in xs && row in Unpicked(fs, p, x)
  {
    if xs != [] {
      MemberRow(fs, p, xs[1..], row);
      assert xs == [xs[0]] + xs[1..];
    }
  }

  lemma PickRowIs(ps: seq<Project>, f: Fold, pick: Pick)
    requires WellFormed(ps) && FoldOk(ps, f) && pick in f.picked
    ensures PickRow(pick) == Some(Row(pick.artifact.number, pick.k, pick.artifact.versions[pick.k - 1]))
    ensures TrueRow(ps, f.project, PickRow(pick).value)
  {
    LookupWellVersioned(ps, f.project, pick.artifact.number);
  }

  lemma PickedRow(ps: seq<Project>, f: Fold, row: Row)
    requires WellFormed(ps) && FoldOk(ps, f)
    ensures row in PickedRows(f.picked) <==> TrueRow(ps, f.project, row) && Picks(f, f.project, row.n, row.k)
  {
    FilterMembers((pick: Pick) => PickRow(pick), f.picked);
    hide WellFormed, FoldOk, Lookup, PickRow, FilterMap;
    if row in PickedRows(f.picked) {
      var pick :| pick in f.picked && PickRow(pick) == Some(row);
      PickRowIs(ps, f, pick);
    }
    if TrueRow(ps, f.project, row) && Picks(f, f.project, row.n, row.k) {
      var pick :| pick in f.picked && pick.artifact.number == row.n && pick.k == row.k;
      PickRowIs(ps, f, pick);
    }
  }

  lemma LookupWellVersioned(ps: seq<Project>, p: string, n: nat)
    requires WellFormed(ps) && Lookup(ps, p, n).Some?
    ensures WellVersioned(Lookup(ps, p, n).value) && Lookup(ps, p, n).value.number == n
  {
    assert WellNumbered(FindProject(ps, p).value);
  }

  /** The rows of a fold are the versions it takes and the versions of its members that no fold takes. */
  lemma OrderedRow(ps: seq<Project>, fs: seq<Fold>, f: Fold, row: Row)
    requires WellFormed(ps) && FoldOk(ps, f)
    ensures row in Ordered(fs, f) <==>
            TrueRow(ps, f.project, row)
            && (Picks(f, f.project, row.n, row.k)
                || (Claims(f, f.project, row.n) && PickingFold(fs, f.project, row.n, row.k).None?))
  {
    hide WellFormed, Lookup, Unpicked, PickedRows, MemberRows, PickingFold;
    var rows := MemberRows(fs, f.project, f.members) + PickedRows(f.picked);
    SortByPermutes(RowKey, rows);
    PermutationMembers(rows, Ordered(fs, f));
    hide SortBy;
    MemberRow(fs, f.project, f.members, row);
    PickedRow(ps, f, row);
    forall x | x in f.members
      ensures row in Unpicked(fs, f.project, x) <==>
              (row.n == x.number && TrueRow(ps, f.project, row) && PickingFold(fs, f.project, row.n, row.k).None?)
    {
      LookupWellVersioned(ps, f.project, x.number);
      UnpickedMember(fs, f.project, x, row);
    }
    if Claims(f, f.project, row.n) {
      assert f.members[PositionOf(f.members, row.n)] in f.members;
    }
  }

  lemma {:induction false} FilterDistinctRows<T>(g: T -> Option<Row>, xs: seq<T>)
    requires forall i, j :: 0 <= i < j < |xs| && g(xs[i]).Some? && g(xs[j]).Some? ==> g(xs[i]) != g(xs[j])
    ensures Distinct(FilterMap(g, xs))
  {
    if xs != [] {
      FilterDistinctRows(g, xs[1..]);
      FilterMembers(g, xs[1..]);
      var rest := FilterMap(g, xs[1..]);
      if g(xs[0]).Some? {
        forall j | 0 <= j < |rest| ensures rest[j] != g(xs[0]).value {
          assert rest[j] in rest;
          var x :| x in xs[1..] && g(x) == Some(rest[j]);
          var k :| 0 <= k < |xs[1..]| && xs[1..][k] == x;
          assert xs[k + 1] == x;
        }
      }
    }
  }

  lemma UnpickedDistinct(fs: seq<Fold>, p: string, x: Artifact)
    requires WellVersioned(x)
    ensures Distinct(Unpicked(fs, p, x))
  {
    FilterDistinctRows((v: Version) =>
      if PickingFold(fs, p, x.number, v.number).Some? then None else Some(Row(x.number, v.number, v)), x.versions);
  }

  lemma {:induction false} MemberRowsDistinct(fs: seq<Fold>, p: string, xs: seq<Artifact>)
    requires DistinctNumbers(xs) && forall x :: x in xs ==> WellVersioned(x)
    ensures Distinct(MemberRows(fs, p, xs))
  {
    if xs != [] {
      UnpickedDistinct(fs, p, xs[0]);
      MemberRowsDistinct(fs, p, xs[1..]);
      var head, rest := Unpicked(fs, p, xs[0]), MemberRows(fs, p, xs[1..]);
      forall i, j | 0 <= i < |head| && 0 <= j < |rest| ensures head[i] != rest[j] {
        assert head[i] in head && rest[j] in rest;
        UnpickedMember(fs, p, xs[0], head[i]);
        MemberRow(fs, p, xs[1..], rest[j]);
        var x :| x in xs[1..] && rest[j] in Unpicked(fs, p, x);
        var k :| 0 <= k < |xs[1..]| && xs[1..][k] == x;
        assert xs[k + 1] == x;
        UnpickedMember(fs, p, x, rest[j]);
      }
    }
  }

  lemma PickedRowsDistinct(ps: seq<Project>, f: Fold)
    requires WellFormed(ps) && FoldOk(ps, f)
    ensures Distinct(PickedRows(f.picked))
  {
    var g := (pick: Pick) => PickRow(pick);
    forall i, j | 0 <= i < j < |f.picked| ensures g(f.picked[i]) != g(f.picked[j]) {
      assert f.picked[i] in f.picked && f.picked[j] in f.picked;
      LookupWellVersioned(ps, f.project, f.picked[i].artifact.number);
      LookupWellVersioned(ps, f.project, f.picked[j].artifact.number);
    }
    FilterDistinctRows(g, f.picked);
  }

  /** No version has two rows. */
  lemma OrderedDistinct(ps: seq<Project>, fs: seq<Fold>, f: Fold)
    requires WellFormed(ps) && FoldsOk(ps, fs) && f in fs
    ensures Distinct(Ordered(fs, f))
  {
    var own, taken := MemberRows(fs, f.project, f.members), PickedRows(f.picked);
    forall x | x in f.members ensures WellVersioned(x) {
      LookupWellVersioned(ps, f.project, x.number);
    }
    MemberRowsDistinct(fs, f.project, f.members);
    PickedRowsDistinct(ps, f);
    forall i, j | 0 <= i < |own| && 0 <= j < |taken| ensures own[i] != taken[j] {
      assert own[i] in own && taken[j] in taken;
      PickedRow(ps, f, taken[j]);
      Picker(ps, fs, f, f.project, taken[j].n, taken[j].k);
      MemberRow(fs, f.project, f.members, own[i]);
      var x :| x in f.members && own[i] in Unpicked(fs, f.project, x);
      UnpickedMember(fs, f.project, x, own[i]);
    }
    SortByPermutes(RowKey, own + taken);
    PermutationDistinct(own + taken, Ordered(fs, f));
  }
}

/** Address maps: where a rewrite of the registry moves each live address, and what stays true of it. A map carries
    one registry to the next when following it takes each live address to the same thing, and covers the next when
    every version address of the next is where some version address of the first went. */
module AddressMaps {
  import opened Basics
  import opened Registry

  function Moves(ps: seq<Project>, target: Address -> Address): (m: map<Address, Address>)
    ensures forall a :: Live(ps, a) ==> Follow(m, a) == target(a)
    ensures forall a :: a in m ==> Live(ps, a) && m[a] == target(a) && target(a) != a
  {
    map a | a in LiveAddresses(ps) && target(a) != a :: target(a)
  }

  /** The thing found after a rewrite is the one that was there before. Unless `strict`, an artifact may also
      lead to one with the same identity or to one that holds some version it held. */
  ghost predicate Leads(x: Thing, y: Thing, strict: bool)
  {
    x == y || (!strict && x.AnArtifact? && y.AnArtifact? && (x.uid == y.uid || !(x.holds !! y.holds)))
  }

  /** Following `m` takes each address live in `before` to the address of the same thing in `after`. */
  ghost predicate Carries(before: seq<Project>, m: map<Address, Address>, after: seq<Project>, strict: bool)
  {
    forall a :: Live(before, a) ==>
      Live(after, Follow(m, a)) && Leads(At(before, a).value, At(after, Follow(m, a)).value, strict)
  }

  /** Every version address of `after` is where some version address of `before` went. */
  ghost predicate Covers(before: seq<Project>, m: map<Address, Address>, after: seq<Project>)
  {
    forall b :: IsVersion(after, b) ==> exists a :: IsVersion(before, a) && Follow(m, a) == b
  }

  /** An address that is taken to a thing is taken to an address of the same kind. */
  lemma CarriesKind(before: seq<Project>, m: map<Address, Address>, after: seq<Project>, strict: bool, a: Address)
    requires Carries(before, m, after, strict) && Live(before, a)
    ensures Follow(m, a).ProjectAt? == a.ProjectAt?
    ensures Follow(m, a).VersionAt? == a.VersionAt?
  {
    assert Live(after, Follow(m, a));
  }

  /** A rewrite that carries and covers neither loses, copies nor invents a version. */
  lemma VersionsConserved(before: seq<Project>, m: map<Address, Address>, after: seq<Project>, strict: bool)
    requires Carries(before, m, after, strict) && Covers(before, m, after)
    requires VersionsOnce(before)
    ensures VersionsOnce(after)
    ensures forall u, d :: (exists a :: At(before, a) == Some(AVersion(u, d))) <==> (exists b :: At(after, b) == Some(AVersion(u, d)))
  {
    forall b, c | IsVersion(after, b) && IsVersion(after, c) && At(after, b).value.uid == At(after, c).value.uid ensures b == c {
      var x :| IsVersion(before, x) && Follow(m, x) == b;
      var y :| IsVersion(before, y) && Follow(m, y) == c;
      assert At(before, x).value.uid == At(before, y).value.uid;
    }
    forall u, d | exists a :: At(before, a) == Some(AVersion(u, d)) ensures exists b :: At(after, b) == Some(AVersion(u, d)) {
      var a :| At(before, a) == Some(AVersion(u, d));
      assert At(after, Follow(m, a)) == Some(AVersion(u, d));
    }
    forall u, d | exists b :: At(after, b) == Some(AVersion(u, d)) ensures exists a :: At(before, a) == Some(AVersion(u, d)) {
      var b :| At(after, b) == Some(AVersion(u, d));
      assert IsVersion(after, b);
      var a :| IsVersion(before, a) && Follow(m, a) == b;
      assert At(before, a) == Some(AVersion(u, d));
    }
  }

  /** `m` with every target following the moves. */
  function Followed(m: map<Address, Address>, moves: map<Address, Address>): map<Address, Address>
  {
    map a | a in m :: Follow(moves, m[a])
  }

  /** The moves that go anywhere, except of addresses in `live`. */
  function Moved(moves: map<Address, Address>, live: set<Address>): map<Address, Address>
  {
    map a | a in moves && moves[a] != a && a !in live :: moves[a]
  }

  /** An address map after some more moves: old entries follow the moves, and every move is an entry. */
  function Carried(m: map<Address, Address>, moves: map<Address, Address>): map<Address, Address>
  {
    Followed(m, moves) + moves
  }

  lemma CarriedEntry(m: map<Address, Address>, moves: map<Address, Address>, a: Address)
    ensures a in Carried(m, moves) <==> a in m || a in moves
    ensures a in Carried(m, moves) ==> Carried(m, moves)[a] == if a in moves then moves[a] else Follow(moves, m[a])
  {
  }

  lemma CarriedEndsLive(m: map<Address, Address>, moves: map<Address, Address>,
                        before: seq<Project>, after: seq<Project>, strict: bool)
    requires EndsLive(m, before) && Carries(before, moves, after, strict)
    requires forall a :: a in moves ==> Live(before, a)
    ensures EndsLive(Carried(m, moves), after)
  {
    var c := Carried(m, moves);
    forall a | a in c ensures Live(after, c[a]) && (c[a].ProjectAt? ==> a.ProjectAt?) {
      CarriesKind(before, moves, after, strict, if a in moves then a else m[a]);
    }
  }

  /** The composed map still carries, as long as no address that was live at the start and has moved is in use
      again when the next moves are made. */
  lemma CarriedCarries(start: seq<Project>, m: map<Address, Address>, before: seq<Project>,
                       moves: map<Address, Address>, after: seq<Project>, strict: bool)
    requires Carries(start, m, before, true) && Carries(before, moves, after, strict)
    requires forall a :: Live(start, a) && a in m ==> a !in moves
    ensures Carries(start, Carried(m, moves), after, strict)
  {
    forall a | Live(start, a)
      ensures Follow(Carried(m, moves), a) == Follow(moves, Follow(m, a))
    {
    }
  }

  lemma CarriedCovers(start: seq<Project>, m: map<Address, Address>, before: seq<Project>,
                      moves: map<Address, Address>, after: seq<Project>)
    requires Covers(start, m, before) && Covers(before, moves, after)
    requires forall a :: Live(start, a) && a in m ==> a !in moves
    ensures Covers(start, Carried(m, moves), after)
  {
    forall c | IsVersion(after, c) ensures exists a :: IsVersion(start, a) && Follow(Carried(m, moves), a) == c {
      var b :| IsVersion(before, b) && Follow(moves, b) == c;
      var a :| IsVersion(start, a) && Follow(m, a) == b;
      assert Follow(Carried(m, moves), a) == c;
    }
  }
}

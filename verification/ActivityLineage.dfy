/** The memory lineage as a statement about the last event that touches each claim. */
module ActivityLineage {
  import opened Activity

  /** Some event before the `n`-th mutates `c`. */
  ghost predicate Known(es: seq<Event>, n: nat, c: Id)
    requires n <= |es|
  {
    exists i :: 0 <= i < n && MutatesClaim(es[i], c)
  }

  /** The `i`-th event decides the state of `c`: by mutating it, or by retiring it once it is known. */
  ghost predicate Touches(es: seq<Event>, i: nat, c: Id)
    requires i < |es|
  {
    MutatesClaim(es[i], c) || (Retires(es[i], c) && Known(es, i, c))
  }

  /** What a touch leaves. A claim that lists itself is retired by its own promotion. */
  function TouchedState(e: Event, c: Id): State
    requires e.body.Mutates?
  {
    if Retires(e, c) then IsSuperseded else StateAfter(e.body.mutation)
  }

  lemma {:induction false} KnownClaims(es: seq<Event>, n: nat, c: Id)
    requires n <= |es| && LineageUpTo(es, n).Ok?
    ensures c in LineageUpTo(es, n).value <==> Known(es, n, c)
  {
    if n > 0 {
      KnownClaims(es, n - 1, c);
      assert Known(es, n, c) <==> Known(es, n - 1, c) || MutatesClaim(es[n - 1], c);
    }
  }

  /** A claim's identity fields are those of its last own mutation. */
  lemma {:induction false} LastMutationDecides(es: seq<Event>, n: nat, c: Id, i: nat)
    requires i < n <= |es| && LineageUpTo(es, n).Ok?
    requires MutatesClaim(es[i], c) && forall j :: i < j < n ==> !MutatesClaim(es[j], c)
    ensures c in LineageUpTo(es, n).value
    ensures var claim := LineageUpTo(es, n).value[c];
            && claim.eventId == es[i].id
            && claim.introducedBy == es[i].body.memory.introducedBy
            && claim.introduction == SessionOf(es, es[i].body.memory.introducedBy)
            && claim.mutationSession == es[i].session
    decreases n
  {
    if i < n - 1 {
      LastMutationDecides(es, n - 1, c, i);
    }
  }

  /** A claim's state and projections are those its last touch leaves. */
  lemma {:induction false} LastTouchDecides(es: seq<Event>, n: nat, c: Id, i: nat)
    requires i < n <= |es| && LineageUpTo(es, n).Ok?
    requires Touches(es, i, c) && forall j :: i < j < n ==> !Touches(es, j, c)
    ensures c in LineageUpTo(es, n).value
    ensures var claim := LineageUpTo(es, n).value[c];
            && claim.state == TouchedState(es[i], c)
            && (claim.state == IsCurrent ==> claim.projections == es[i].body.memory.projections)
            && (claim.state != IsCurrent ==> claim.projections == {})
    decreases n
  {
    KnownClaims(es, n - 1, c);
    if i < n - 1 {
      LastTouchDecides(es, n - 1, c, i);
      assert !Touches(es, n - 1, c);
    }
  }

  /** Every known claim has a last touch. */
  lemma {:induction false} LastTouchExists(es: seq<Event>, n: nat, c: Id) returns (i: nat)
    requires n <= |es| && Known(es, n, c)
    ensures i < n && Touches(es, i, c) && forall j :: i < j < n ==> !Touches(es, j, c)
  {
    if Touches(es, n - 1, c) {
      i := n - 1;
    } else {
      i := LastTouchExists(es, n - 1, c);
    }
  }

  lemma ProjectionsOnlyWhenCurrent(es: seq<Event>, n: nat, c: Id)
    requires n <= |es| && LineageUpTo(es, n).Ok? && c in LineageUpTo(es, n).value
    ensures var claim := LineageUpTo(es, n).value[c]; claim.projections != {} ==> claim.state == IsCurrent
  {
    KnownClaims(es, n, c);
    var i := LastTouchExists(es, n, c);
    LastTouchDecides(es, n, c, i);
  }

  /** Two mutations of one claim disagree on the event that introduced it. */
  ghost predicate Disagree(e: Event, f: Event)
  {
    && e.body.Mutates? && f.body.Mutates?
    && e.body.memory.claimId == f.body.memory.claimId
    && e.body.memory.introducedBy != f.body.memory.introducedBy
  }

  lemma {:induction false} LastMutationExists(es: seq<Event>, n: nat, c: Id) returns (i: nat)
    requires n <= |es| && Known(es, n, c)
    ensures i < n && MutatesClaim(es[i], c) && forall j :: i < j < n ==> !MutatesClaim(es[j], c)
  {
    if MutatesClaim(es[n - 1], c) {
      i := n - 1;
    } else {
      i := LastMutationExists(es, n - 1, c);
    }
  }

  /** The fold fails exactly when two mutations of a claim disagree on its introduction. */
  lemma {:induction false} FailsIffIntroductionsDisagree(es: seq<Event>, n: nat)
    requires n <= |es|
    ensures LineageUpTo(es, n).Err? <==> exists i, j :: 0 <= i < j < n && Disagree(es[i], es[j])
  {
    if n > 0 {
      var e := es[n - 1];
      FailsIffIntroductionsDisagree(es, n - 1);
      if LineageUpTo(es, n - 1).Ok? && e.body.Mutates? {
        var c := e.body.memory.claimId;
        KnownClaims(es, n - 1, c);
        if Known(es, n - 1, c) {
          var k := LastMutationExists(es, n - 1, c);
          LastMutationDecides(es, n - 1, c, k);
          if LineageUpTo(es, n).Ok? {
            forall i | 0 <= i < n - 1 ensures !Disagree(es[i], e) {
              assert i == k || (!Disagree(es[i], es[k]) && !Disagree(es[k], es[i]));
            }
          } else {
            assert Disagree(es[k], e);
          }
        } else {
          assert forall i :: 0 <= i < n - 1 ==> !MutatesClaim(es[i], c);
        }
      }
    }
  }

  /** All mutations of a claim share the introduction the lineage records. */
  lemma SharedIntroduction(es: seq<Event>, i: nat)
    requires i < |es| && es[i].body.Mutates? && LineageUpTo(es, |es|).Ok?
    ensures var c := es[i].body.memory.claimId;
            && c in LineageUpTo(es, |es|).value
            && LineageUpTo(es, |es|).value[c].introducedBy == es[i].body.memory.introducedBy
  {
    var c := es[i].body.memory.claimId;
    assert MutatesClaim(es[i], c);
    var k := LastMutationExists(es, |es|, c);
    LastMutationDecides(es, |es|, c, k);
    FailsIffIntroductionsDisagree(es, |es|);
    assert i == k || !Disagree(es[i], es[k]);
  }
}

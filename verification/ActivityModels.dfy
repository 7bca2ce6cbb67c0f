/** The read model as a statement about the evidence: its times and ids, whatever order the records came in. */
module ActivityModels {
  import opened Basics
  import opened Sorting
  import opened Activity
  import opened ActivityLineage
  import opened ActivitySpend
  import opened ActivityReports

  /** The events are the evidence, in order of time and, at one time, of id. */
  lemma EventsInTime(records: seq<Option<Event>>)
    requires Consistent(Evidence(records)) && Built(records).Ok?
    ensures var es := Built(records).value.events;
            && Elements(es) == Evidence(records)
            && forall i, j :: 0 <= i < j < |es| ==> es[i].ts < es[j].ts || (es[i].ts == es[j].ts && es[i].id < es[j].id)
  {
    hide Evidence, Dedup, SpendUpTo, LineageUpTo;
    EventsOrdered(records);
    var es := EventsOf(records);
    forall i, j | 0 <= i < j < |es| ensures Earlier(es[i], es[j]) {
      assert EventKey(es[i]).Le(EventKey(es[j])) && es[i].id != es[j].id;
    }
  }

  // Spend.

  /** Reports of one usage of one identity. */
  predicate OneUsage(x: Event, y: Event)
  {
    && x.body.Spends? && y.body.Spends?
    && x.identity == y.identity && x.body.cost.usageId == y.body.cost.usageId
  }

  /** `x` has the greatest time, and then the greatest id, of the reports of its usage. */
  ghost predicate LatestOfUsage(evidence: set<Event>, x: Event)
  {
    x in evidence && x.body.Spends? && forall y :: y in evidence && OneUsage(y, x) && y != x ==> Earlier(y, x)
  }

  ghost predicate EarliestOfUsage(evidence: set<Event>, x: Event, y: Event)
  {
    x in evidence && OneUsage(x, y) && forall z :: z in evidence && OneUsage(z, y) && z != x ==> Earlier(x, z)
  }

  /** Group `g` is that of report `x`, on the day its usage was first reported. */
  ghost predicate OnFirstDay(evidence: set<Event>, x: Event, g: Group)
    requires x.body.Spends?
  {
    && g.identity == x.identity && g.profile == x.profile && g.currency == x.body.cost.currency
    && exists f :: EarliestOfUsage(evidence, f, x) && g.day * 86400 <= f.ts < g.day * 86400 + 86400
  }

  ghost predicate InTime(es: seq<Event>)
  {
    forall i, j :: 0 <= i < j < |es| ==> Earlier(es[i], es[j])
  }

  lemma LatestIs(es: seq<Event>, i: nat)
    requires InTime(es) && i < |es|
    ensures LatestReport(es, i) <==> LatestOfUsage(Elements(es), es[i])
  {
    if LatestReport(es, i) {
      forall y | y in es && OneUsage(y, es[i]) && y != es[i] ensures Earlier(y, es[i]) {
        var j :| 0 <= j < |es| && es[j] == y;
        assert SameUsage(es[i], es[j]);
      }
    }
    if LatestOfUsage(Elements(es), es[i]) {
      forall j | i < j < |es| ensures !SameUsage(es[i], es[j]) {
        assert Earlier(es[i], es[j]) && es[j] in Elements(es);
      }
    }
  }

  lemma EarliestIs(es: seq<Event>, i: nat) returns (f: nat)
    requires InTime(es) && i < |es| && es[i].body.Spends?
    ensures f <= i && EarliestOfUsage(Elements(es), es[f], es[i]) && FirstReport(es, es[i]) == es[f]
  {
    f := FirstExists(es, i);
    FirstReportIs(es, es[i], f);
    forall z | z in es && OneUsage(z, es[i]) && z != es[f] ensures Earlier(es[f], z) {
      var j :| 0 <= j < |es| && es[j] == z;
      assert SameUsage(es[j], es[i]);
    }
  }

  lemma OnlyOneEarliest(evidence: set<Event>, f: Event, g: Event, x: Event)
    requires EarliestOfUsage(evidence, f, x) && EarliestOfUsage(evidence, g, x)
    ensures f == g
  {
  }

  /** Which reports count in a group. */
  lemma CountsIff(es: seq<Event>, i: nat, g: Group)
    requires InTime(es) && i < |es|
    ensures Counts(es, i, g) <==> LatestOfUsage(Elements(es), es[i]) && OnFirstDay(Elements(es), es[i], g)
  {
    LatestIs(es, i);
    if es[i].body.Spends? {
      var f := EarliestIs(es, i);
      hide EarliestOfUsage, LatestReport, LatestOfUsage;
      forall e | EarliestOfUsage(Elements(es), e, es[i]) ensures e == es[f] {
        OnlyOneEarliest(Elements(es), e, es[f], es[i]);
      }
      assert DayOf(es[f]) * 86400 <= es[f].ts < DayOf(es[f]) * 86400 + 86400;
      assert OnFirstDay(Elements(es), es[i], g) <==> GroupOf(es, es[i]) == g;
    }
  }

  /** A group exists when a latest report falls in it; it holds those reports and no others. */
  lemma SpentInGroup(records: seq<Option<Event>>, g: Group)
    requires Consistent(Evidence(records)) && Built(records).Ok?
    ensures var m, evidence := Built(records).value, Evidence(records);
            && (g in m.spend <==> exists x :: LatestOfUsage(evidence, x) && OnFirstDay(evidence, x, g))
            && (g in m.spend ==>
                  && Distinct(m.spend[g].eventIds)
                  && (forall x :: x in evidence ==>
                        (x.id in m.spend[g].eventIds <==> LatestOfUsage(evidence, x) && OnFirstDay(evidence, x, g)))
                  && AmountsOf(m.spend[g]) == Total(m.events, 0, |m.events|, g))
  {
    hide Evidence, Dedup, SpendUpTo, LineageUpTo, LatestOfUsage, OnFirstDay, Counts, Total, AmountsOf, BookedIds;
    EventsInTime(records);
    var es := Built(records).value.events;
    SpendIsTotal(es, g);
    IdsInGroup(es, g);
  }

  lemma IdsInGroup(es: seq<Event>, g: Group)
    requires InTime(es) && UniqueIds(es)
    ensures (exists i :: 0 <= i < |es| && Counts(es, i, g)) <==>
            exists x :: LatestOfUsage(Elements(es), x) && OnFirstDay(Elements(es), x, g)
    ensures forall x :: x in es ==>
              (x.id in BookedIds(es, |es|, g) <==> LatestOfUsage(Elements(es), x) && OnFirstDay(Elements(es), x, g))
    ensures Distinct(BookedIds(es, |es|, g))
  {
    hide OnFirstDay, Counts, BookedIds;
    forall i: nat | i < |es|
      ensures Counts(es, i, g) <==> LatestOfUsage(Elements(es), es[i]) && OnFirstDay(Elements(es), es[i], g)
      ensures es[i].id in BookedIds(es, |es|, g) <==> Counts(es, i, g)
    {
      CountsIff(es, i, g);
      BookedMembers(es, |es|, g, i);
    }
    forall x | x in es
      ensures x.id in BookedIds(es, |es|, g) <==> LatestOfUsage(Elements(es), x) && OnFirstDay(Elements(es), x, g)
    {
      var i :| 0 <= i < |es| && es[i] == x;
    }
    BookedApart(es, g);
    forall x | LatestOfUsage(Elements(es), x) && OnFirstDay(Elements(es), x, g)
      ensures exists i :: 0 <= i < |es| && Counts(es, i, g)
    {
      var i :| 0 <= i < |es| && es[i] == x;
      assert Counts(es, i, g);
    }
  }

  lemma BookedApart(es: seq<Event>, g: Group)
    requires UniqueIds(es)
    ensures Distinct(BookedIds(es, |es|, g))
  {
    if es != [] {
      BookedMembers(es, |es|, g, 0);
    }
  }

  // Memory lineage.

  /** `e` decides the state of claim `c`: it mutates it, or it lists it among those it takes the place of when an
      earlier event has mutated it. */
  ghost predicate Decides(evidence: set<Event>, e: Event, c: Id)
  {
    && e in evidence && e.body.Mutates?
    && (e.body.memory.claimId == c || (ListsClaim(e, c) && exists x :: Mutating(evidence, x, c) && Earlier(x, e)))
  }

  predicate ListsClaim(e: Event, c: Id)
    requires e.body.Mutates?
  {
    e.body.mutation in {Promoted, Superseded} && c in e.body.memory.supersedes
  }

  ghost predicate Mutating(evidence: set<Event>, e: Event, c: Id)
  {
    e in evidence && e.body.Mutates? && e.body.memory.claimId == c
  }

  /** What claim `c` looks like after `touch`, the last event to decide its state, and `own`, its last mutation. */
  ghost predicate Shows(evidence: set<Event>, claim: Claim, touch: Event, own: Event, c: Id)
    requires touch.body.Mutates? && own.body.Mutates?
  {
    && claim.eventId == own.id && claim.mutationSession == own.session
    && claim.introducedBy == own.body.memory.introducedBy
    && (claim.introduction.None? <==> forall x :: x in evidence ==> x.id != claim.introducedBy)
    && (claim.introduction.Some? ==>
          exists x :: x in evidence && x.id == claim.introducedBy && x.session == claim.introduction.value)
    && match touch.body.mutation
       case Suppressed => claim.state == IsSuppressed && claim.projections == {}
       case Deleted => claim.state == IsDeleted && claim.projections == {}
       case _ => if ListsClaim(touch, c) then claim.state == IsSuperseded && claim.projections == {}
                 else claim.state == IsCurrent && claim.projections == touch.body.memory.projections
  }

  /** A claim is known when some evidence mutates it. It shows the last event, by time and id, that decides its state,
      and its own last mutation. */
  lemma LineageShowsLatest(records: seq<Option<Event>>, c: Id) returns (touch: Event, own: Event)
    requires Consistent(Evidence(records)) && Built(records).Ok?
    requires exists e :: Mutating(Evidence(records), e, c)
    ensures var evidence, lineage := Evidence(records), Built(records).value.lineage;
            && Decides(evidence, touch, c) && (forall y :: Decides(evidence, y, c) && y != touch ==> Earlier(y, touch))
            && Mutating(evidence, own, c) && (forall y :: Mutating(evidence, y, c) && y != own ==> Earlier(y, own))
            && c in lineage && Shows(evidence, lineage[c], touch, own, c)
  {
    hide Evidence, Dedup, SpendUpTo, LineageUpTo, Shows, Decides, Touches, Mutating;
    EventsInTime(records);
    var es := Built(records).value.events;
    KnownIs(es, c);
    var i := LastTouchExists(es, |es|, c);
    var j := LastMutationExists(es, |es|, c);
    ClaimShows(es, i, j, c);
    touch, own := es[i], es[j];
    DecidesLast(es, i, c);
    MutatesLast(es, j, c);
  }

  lemma ClaimShows(es: seq<Event>, i: nat, j: nat, c: Id)
    requires LineageUpTo(es, |es|).Ok? && i < |es| && j < |es|
    requires Touches(es, i, c) && forall k :: i < k < |es| ==> !Touches(es, k, c)
    requires MutatesClaim(es[j], c) && forall k :: j < k < |es| ==> !MutatesClaim(es[k], c)
    ensures es[i].body.Mutates? && es[j].body.Mutates? && c in LineageUpTo(es, |es|).value
    ensures Shows(Elements(es), LineageUpTo(es, |es|).value[c], es[i], es[j], c)
  {
    hide LineageUpTo, Touches, SessionOf;
    LastTouchDecides(es, |es|, c, i);
    LastMutationDecides(es, |es|, c, j);
    SessionIs(es, es[j].body.memory.introducedBy);
    TouchMutates(es, i, c);
  }

  lemma TouchMutates(es: seq<Event>, i: nat, c: Id)
    requires i < |es| && Touches(es, i, c)
    ensures es[i].body.Mutates?
    ensures !ListsClaim(es[i], c) ==> es[i].body.memory.claimId == c
  {
  }

  lemma DecidesLast(es: seq<Event>, i: nat, c: Id)
    requires InTime(es) && i < |es| && Touches(es, i, c) && forall j :: i < j < |es| ==> !Touches(es, j, c)
    ensures Decides(Elements(es), es[i], c)
    ensures forall y :: Decides(Elements(es), y, c) && y != es[i] ==> Earlier(y, es[i])
  {
    TouchesIs(es, i, c);
    forall y | Decides(Elements(es), y, c) && y != es[i] ensures Earlier(y, es[i]) {
      var j :| 0 <= j < |es| && es[j] == y;
      TouchesIs(es, j, c);
    }
  }

  lemma TouchesIs(es: seq<Event>, i: nat, c: Id)
    requires InTime(es) && i < |es|
    ensures Touches(es, i, c) <==> Decides(Elements(es), es[i], c)
  {
    if x :| Mutating(Elements(es), x, c) && Earlier(x, es[i]) {
      var j :| 0 <= j < |es| && es[j] == x;
      assert j < i && MutatesClaim(es[j], c);
    }
    if Known(es, i, c) {
      var j :| 0 <= j < i && MutatesClaim(es[j], c);
      assert Earlier(es[j], es[i]) && Mutating(Elements(es), es[j], c);
    }
  }

  lemma MutatesLast(es: seq<Event>, i: nat, c: Id)
    requires InTime(es) && i < |es| && MutatesClaim(es[i], c) && forall j :: i < j < |es| ==> !MutatesClaim(es[j], c)
    ensures Mutating(Elements(es), es[i], c)
    ensures forall y :: Mutating(Elements(es), y, c) && y != es[i] ==> Earlier(y, es[i])
  {
    forall y | Mutating(Elements(es), y, c) && y != es[i] ensures Earlier(y, es[i]) {
      var j :| 0 <= j < |es| && es[j] == y;
      assert MutatesClaim(es[j], c);
    }
  }

  lemma {:induction false} SessionIs(es: seq<Event>, id: Id)
    ensures SessionOf(es, id).None? <==> forall x :: x in es ==> x.id != id
    ensures SessionOf(es, id).Some? ==> exists x :: x in es && x.id == id && x.session == SessionOf(es, id).value
  {
    if es != [] && es[0].id != id {
      SessionIs(es[1..], id);
      assert es == [es[0]] + es[1..];
    }
  }

  /** No claim comes from nowhere, and the evidence makes a model unless two mutations disagree on an introduction. */
  lemma LineageNeedsEvidence(records: seq<Option<Event>>)
    requires Consistent(Evidence(records))
    ensures Built(records).Err? <==> exists x, y :: x in Evidence(records) && y in Evidence(records) && Disagree(x, y)
    ensures Built(records).Ok? ==>
              forall c :: c in Built(records).value.lineage <==> exists e :: Mutating(Evidence(records), e, c)
  {
    hide Evidence, Dedup, SpendUpTo, LineageUpTo;
    EventsOrdered(records);
    var es := EventsOf(records);
    FailsIffIntroductionsDisagree(es, |es|);
    if x, y :| x in Elements(es) && y in Elements(es) && Disagree(x, y) {
      var i :| 0 <= i < |es| && es[i] == x;
      var j :| 0 <= j < |es| && es[j] == y;
      assert if i < j then Disagree(es[i], es[j]) else Disagree(es[j], es[i]);
    }
    if Built(records).Ok? {
      forall c ensures c in Built(records).value.lineage <==> exists e :: Mutating(Evidence(records), e, c) {
        KnownClaims(es, |es|, c);
        KnownIs(es, c);
      }
    }
  }

  lemma KnownIs(es: seq<Event>, c: Id)
    ensures Known(es, |es|, c) <==> exists e :: Mutating(Elements(es), e, c)
  {
    if e :| Mutating(Elements(es), e, c) {
      var i :| 0 <= i < |es| && es[i] == e;
      assert MutatesClaim(es[i], c);
    }
    if Known(es, |es|, c) {
      var i :| 0 <= i < |es| && MutatesClaim(es[i], c);
      assert Mutating(Elements(es), es[i], c);
    }
  }

  // Records that are no evidence.

  function NoEvidence(records: seq<Option<Event>>): set<nat>
  {
    set i: nat | i < |records| && records[i].None?
  }

  /** The model counts the records that project to nothing. */
  lemma {:induction false} SkippedAreCounted(records: seq<Option<Event>>)
    ensures Skipped(records) == |NoEvidence(records)|
    decreases |records|
  {
    if records != [] {
      var n := |records| - 1;
      SkippedAreCounted(records[..n]);
      assert NoEvidence(records) == NoEvidence(records[..n]) + if records[n].None? then {n} else {};
    } else {
      assert NoEvidence(records) == {};
    }
  }
}

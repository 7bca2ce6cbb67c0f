/** What one more record of a usage changes in the read model, wherever it arrives. */
module ActivityReports {
  import opened Basics
  import opened Sorting
  import opened Activity
  import ActivityLineage
  import opened ActivitySpend

  /** The evidence agrees with itself and knows no event of `e`'s id. */
  ghost predicate NewTo(records: seq<Option<Event>>, e: Event)
  {
    Consistent(Evidence(records)) && forall x :: x in Evidence(records) ==> x.id != e.id
  }

  /** `x` has the earlier time, or the same time and the smaller id. */
  predicate Earlier(x: Event, y: Event)
  {
    x.ts < y.ts || (x.ts == y.ts && x.id < y.id)
  }

  lemma EarlierIsBefore(x: Event, y: Event)
    ensures Earlier(x, y) <==> !EventKey(y).Le(EventKey(x))
  {
  }

  function EventsOf(records: seq<Option<Event>>): seq<Event>
  {
    SortBy(EventKey, Dedup(records))
  }

  function WithRecord(records: seq<Option<Event>>, e: Event): seq<Option<Event>>
  {
    records + [Some(e)]
  }

  function Insertion(es: seq<Event>, at: nat, e: Event): seq<Event>
    requires at <= |es|
  {
    es[..at] + [e] + es[at..]
  }

  /** Where `e` belongs among ordered events. */
  function PlaceOf(es: seq<Event>, e: Event): (at: nat)
    ensures at <= |es|
    ensures forall i :: 0 <= i < at ==> Earlier(es[i], e)
    ensures at < |es| ==> !Earlier(es[at], e)
  {
    if es == [] || !Earlier(es[0], e) then 0 else 1 + PlaceOf(es[1..], e)
  }

  lemma EventsOrdered(records: seq<Option<Event>>)
    requires Consistent(Evidence(records))
    ensures Ordered(EventsOf(records)) && Elements(EventsOf(records)) == Evidence(records)
  {
    DedupElements(records);
    SortedKeepsUnique(Dedup(records));
  }

  lemma InsertionAt(es: seq<Event>, at: nat, e: Event)
    requires at <= |es|
    ensures var fs := Insertion(es, at, e);
            && |fs| == |es| + 1 && fs[at] == e
            && forall i :: 0 <= i < |es| ==> fs[if i < at then i else i + 1] == es[i]
    ensures var fs := Insertion(es, at, e);
            forall i :: 0 <= i < |fs| && i != at ==> fs[i] == es[if i < at then i else i - 1]
  {
  }

  lemma InsertionUnique(es: seq<Event>, at: nat, e: Event)
    requires at <= |es| && UniqueIds(es) && forall i :: 0 <= i < |es| ==> es[i].id != e.id
    ensures UniqueIds(Insertion(es, at, e)) && Elements(Insertion(es, at, e)) == Elements(es) + {e}
  {
    InsertionAt(es, at, e);
    hide Insertion;
    var fs := Insertion(es, at, e);
    forall x | x in es ensures x in fs {
      var i :| 0 <= i < |es| && es[i] == x;
      assert fs[if i < at then i else i + 1] == x;
    }
  }

  lemma PlaceSplits(es: seq<Event>, e: Event, i: nat)
    requires Sorted(EventKey, es) && i < |es|
    ensures if i < PlaceOf(es, e) then EventKey(es[i]).Le(EventKey(e)) else EventKey(e).Le(EventKey(es[i]))
  {
    if PlaceOf(es, e) < i {
      assert EventKey(es[PlaceOf(es, e)]).Le(EventKey(es[i]));
    }
  }

  lemma InsertionSorted(es: seq<Event>, e: Event)
    requires Sorted(EventKey, es)
    ensures Sorted(EventKey, Insertion(es, PlaceOf(es, e), e))
  {
    hide Insertion, PlaceOf, EventKey, Key.Le;
    var at := PlaceOf(es, e);
    var fs := Insertion(es, at, e);
    InsertionAt(es, at, e);
    forall i, j | 0 <= i < j < |fs| ensures EventKey(fs[i]).Le(EventKey(fs[j])) {
      if i == at {
        PlaceSplits(es, e, j - 1);
      } else if j == at {
        PlaceSplits(es, e, i);
      } else {
        assert EventKey(es[if i < at then i else i - 1]).Le(EventKey(es[if j < at then j else j - 1]));
      }
    }
  }

  /** Reading one more record, of a new event, puts the event in its place among the others. */
  lemma RecordInserts(records: seq<Option<Event>>, e: Event)
    requires NewTo(records, e)
    ensures var es := EventsOf(records);
            EventsOf(WithRecord(records, e)) == Insertion(es, PlaceOf(es, e), e)
  {
    var es, more := EventsOf(records), WithRecord(records, e);
    assert Evidence(more) == Evidence(records) + {e} by {
      assert forall r :: r in more <==> r in records || r == Some(e);
    }
    EventsOrdered(records);
    EventsOrdered(more);
    forall i | 0 <= i < |es| ensures es[i].id != e.id {
      assert es[i] in Elements(es);
    }
    InsertionUnique(es, PlaceOf(es, e), e);
    InsertionSorted(es, e);
    OrderUnique(EventsOf(more), Insertion(es, PlaceOf(es, e), e));
  }

  // The totals after an insertion.

  function Shifted(at: nat, i: nat): nat
  {
    if i < at then i else i + 1
  }

  /** A stretch of reports that are booked as before, with the new event among them. */
  lemma StretchTotals(es: seq<Event>, at: nat, e: Event, lo: nat, hi: nat, g: Group)
    requires lo <= at <= hi <= |es|
    requires forall i :: lo <= i < hi ==> Booked(Insertion(es, at, e), Shifted(at, i), g) == Booked(es, i, g)
    ensures Total(Insertion(es, at, e), lo, hi + 1, g) == Total(es, lo, hi, g).Plus(Booked(Insertion(es, at, e), at, g))
  {
    hide Booked, Total;
    var fs := Insertion(es, at, e);
    SameTotals(es, fs, lo, at, 0, g);
    SameTotals(es, fs, at, hi, 1, g);
    TotalSplits(es, lo, at, hi, g);
    TotalSplits(fs, lo, at, hi + 1, g);
    TotalSplits(fs, at, at + 1, hi + 1, g);
    TotalOne(fs, at, g);
  }

  ghost predicate OnlyOneMoves(es: seq<Event>, at: nat, e: Event, k: nat, g: Group)
    requires at <= |es| && k < |es|
  {
    forall i :: 0 <= i < |es| && i != k ==> Booked(Insertion(es, at, e), Shifted(at, i), g) == Booked(es, i, g)
  }

  function TotalAfter(es: seq<Event>, at: nat, e: Event, k: nat, g: Group): Amounts
    requires at <= |es| && k < |es|
  {
    var fs := Insertion(es, at, e);
    Total(es, 0, |es|, g).Minus(Booked(es, k, g)).Plus(Booked(fs, Shifted(at, k), g)).Plus(Booked(fs, at, g))
  }

  lemma InsertedAfterwards(es: seq<Event>, at: nat, e: Event, k: nat, g: Group)
    requires k < at <= |es| && OnlyOneMoves(es, at, e, k, g)
    ensures Total(Insertion(es, at, e), 0, |es| + 1, g) == TotalAfter(es, at, e, k, g)
  {
    hide Booked, Total, Amounts.Plus, Amounts.Minus, Insertion;
    var fs := Insertion(es, at, e);
    InsertionAt(es, at, e);
    SplitAround(es, k, g);
    SplitAround(fs, k, g);
    SameTotals(es, fs, 0, k, 0, g);
    StretchTotals(es, at, e, k + 1, |es|, g);
    TailChanges(Total(es, 0, k, g), Booked(es, k, g), Booked(fs, k, g), Total(es, k + 1, |es|, g), Booked(fs, at, g));
  }

  lemma InsertedBefore(es: seq<Event>, at: nat, e: Event, k: nat, g: Group)
    requires at <= k < |es| && OnlyOneMoves(es, at, e, k, g)
    ensures Total(Insertion(es, at, e), 0, |es| + 1, g) == TotalAfter(es, at, e, k, g)
  {
    hide Booked, Total, Amounts.Plus, Amounts.Minus, Insertion;
    var fs := Insertion(es, at, e);
    InsertionAt(es, at, e);
    SplitAround(es, k, g);
    SplitAround(fs, k + 1, g);
    StretchTotals(es, at, e, 0, k, g);
    SameTotals(es, fs, k + 1, |es|, 1, g);
    HeadChanges(Total(es, 0, k, g), Booked(es, k, g), Booked(fs, k + 1, g), Total(es, k + 1, |es|, g), Booked(fs, at, g));
  }

  /** When one report at most is booked otherwise than before, the totals change by the difference and by what the new
      event is booked for. */
  lemma InsertedTotals(es: seq<Event>, at: nat, e: Event, k: nat, g: Group)
    requires at <= |es| && k < |es| && OnlyOneMoves(es, at, e, k, g)
    ensures Total(Insertion(es, at, e), 0, |es| + 1, g) == TotalAfter(es, at, e, k, g)
  {
    hide TotalAfter, Total, OnlyOneMoves, Insertion;
    if k < at {
      InsertedAfterwards(es, at, e, k, g);
    } else {
      InsertedBefore(es, at, e, k, g);
    }
  }

  lemma TailChanges(before: Amounts, was: Amounts, now: Amounts, after: Amounts, more: Amounts)
    ensures before.Plus(now.Plus(after.Plus(more))) == before.Plus(was.Plus(after)).Minus(was).Plus(now).Plus(more)
  {
  }

  lemma HeadChanges(before: Amounts, was: Amounts, now: Amounts, after: Amounts, more: Amounts)
    ensures before.Plus(more).Plus(now.Plus(after)) == before.Plus(was.Plus(after)).Minus(was).Plus(now).Plus(more)
  {
  }

  // Which reports are booked otherwise than before.

  lemma {:induction false} FirstReportKept(es: seq<Event>, at: nat, e: Event, x: Event)
    requires at <= |es|
    requires !SameUsage(e, x) || exists k :: 0 <= k < at && SameUsage(es[k], x)
    ensures FirstReport(Insertion(es, at, e), x) == FirstReport(es, x)
  {
    var fs := Insertion(es, at, e);
    if at == 0 {
      assert fs[1..] == es;
    } else if !SameUsage(es[0], x) {
      assert fs[1..] == Insertion(es[1..], at - 1, e);
      if k :| 0 <= k < at && SameUsage(es[k], x) {
        assert SameUsage(es[1..][k - 1], x);
      }
      FirstReportKept(es[1..], at - 1, e, x);
    }
  }

  lemma {:induction false} SameFirst(es: seq<Event>, x: Event, y: Event)
    requires SameUsage(x, y) && exists k :: 0 <= k < |es| && SameUsage(es[k], x)
    ensures FirstReport(es, x) == FirstReport(es, y)
  {
    if !SameUsage(es[0], x) {
      var k :| 0 <= k < |es| && SameUsage(es[k], x);
      assert SameUsage(es[1..][k - 1], x);
      SameFirst(es[1..], x, y);
    }
  }

  /** The last report of `e`'s usage. */
  ghost predicate LastOf(es: seq<Event>, k: nat, e: Event)
    requires k < |es|
  {
    SameUsage(es[k], e) && LatestReport(es, k)
  }

  /** Reports on other usages are booked as before. */
  lemma OtherUsagesKeep(es: seq<Event>, at: nat, e: Event, i: nat, g: Group)
    requires at <= |es| && i < |es| && !SameUsage(es[i], e)
    ensures Booked(Insertion(es, at, e), Shifted(at, i), g) == Booked(es, i, g)
  {
    hide Insertion;
    var fs := Insertion(es, at, e);
    InsertionAt(es, at, e);
    if LatestReport(es, i) {
      assert LatestReport(fs, Shifted(at, i));
      FirstReportKept(es, at, e, es[i]);
    } else if es[i].body.Spends? {
      var j :| i < j < |es| && SameUsage(es[i], es[j]);
      assert SameUsage(fs[Shifted(at, i)], fs[Shifted(at, j)]);
    }
  }

  /** So are the reports of the usage that were not its last: nowhere. */
  lemma SupersededKeep(es: seq<Event>, at: nat, e: Event, i: nat, k: nat, g: Group)
    requires at <= |es| && i < |es| && k < |es| && i != k && LastOf(es, k, e) && SameUsage(es[i], e)
    ensures Booked(Insertion(es, at, e), Shifted(at, i), g) == Booked(es, i, g) == NOTHING
  {
    hide Insertion;
    var fs := Insertion(es, at, e);
    InsertionAt(es, at, e);
    assert i < k;
    assert SameUsage(fs[Shifted(at, i)], fs[Shifted(at, k)]);
  }

  lemma OnlyLastMoves(es: seq<Event>, at: nat, e: Event, k: nat, g: Group)
    requires at <= |es| && k < |es| && LastOf(es, k, e)
    ensures OnlyOneMoves(es, at, e, k, g)
  {
    hide Booked, LastOf;
    forall i | 0 <= i < |es| && i != k ensures Booked(Insertion(es, at, e), Shifted(at, i), g) == Booked(es, i, g) {
      if SameUsage(es[i], e) {
        SupersededKeep(es, at, e, i, k, g);
      } else {
        OtherUsagesKeep(es, at, e, i, g);
      }
    }
  }

  /** After its usage's last report, the new one counts instead of it, on the same day. */
  lemma CorrectionBooked(es: seq<Event>, at: nat, e: Event, k: nat, g: Group)
    requires k < at <= |es| && LastOf(es, k, e)
    ensures Booked(Insertion(es, at, e), k, g) == NOTHING
    ensures Booked(Insertion(es, at, e), at, g) ==
            if GroupOf(es, es[k]).(identity := e.identity, profile := e.profile, currency := e.body.cost.currency) == g
            then Worth(e) else NOTHING
  {
    var fs := Insertion(es, at, e);
    InsertionAt(es, at, e);
    forall j | at < j < |fs| ensures !SameUsage(e, fs[j]) {
      assert !SameUsage(es[k], es[j - 1]);
    }
    FirstReportKept(es, at, e, e);
    SameFirst(es, es[k], e);
  }

  /** Before it, the new report counts nowhere; if it comes before the first one, its day is the usage's day. */
  lemma EarlierBooked(es: seq<Event>, at: nat, e: Event, k: nat, g: Group)
    requires at <= k < |es| && LastOf(es, k, e)
    ensures Booked(Insertion(es, at, e), at, g) == NOTHING
    ensures Booked(Insertion(es, at, e), k + 1, g) ==
            if GroupOf(es, es[k]).(day := if FirstAt(es, at, e) then DayOf(e) else GroupOf(es, es[k]).day) == g
            then Worth(es[k]) else NOTHING
  {
    var fs := Insertion(es, at, e);
    InsertionAt(es, at, e);
    assert SameUsage(fs[at], fs[k + 1]);
    assert LatestReport(fs, k + 1);
    if FirstAt(es, at, e) {
      FirstReportIs(fs, es[k], at);
    } else {
      FirstReportKept(es, at, e, es[k]);
    }
  }

  /** No report of `e`'s usage comes before place `at`. */
  ghost predicate FirstAt(es: seq<Event>, at: nat, e: Event)
    requires at <= |es|
  {
    forall j :: 0 <= j < at ==> !SameUsage(es[j], e)
  }

  lemma FirstBooked(es: seq<Event>, at: nat, e: Event, g: Group)
    requires at <= |es| && e.body.Spends? && forall j :: 0 <= j < |es| ==> !SameUsage(es[j], e)
    ensures Booked(Insertion(es, at, e), at, g) ==
            if Group(DayOf(e), e.identity, e.profile, e.body.cost.currency) == g then Worth(e) else NOTHING
  {
    var fs := Insertion(es, at, e);
    InsertionAt(es, at, e);
    FirstReportIs(fs, e, at);
  }

  // The read model of one more record.

  /** The spend of `g` that the read model reports. */
  function SpentOn(m: Model, g: Group): Amounts
  {
    AmountsOf(SpendOf(m.spend, g))
  }

  function OnlyIf(holds: bool, amounts: Amounts): Amounts
  {
    if holds then amounts else NOTHING
  }

  /** `x` is the last report of `e`'s usage among the records, by time and id. */
  ghost predicate LastReport(records: seq<Option<Event>>, x: Event, e: Event)
  {
    && x in Evidence(records) && SameUsage(x, e)
    && forall y :: y in Evidence(records) && SameUsage(y, e) ==> y == x || Earlier(y, x)
  }

  /** A report changes no lineage, so the model that could be built still can. */
  lemma StillBuilt(records: seq<Option<Event>>, e: Event)
    requires NewTo(records, e) && e.body.Spends? && Built(records).Ok?
    ensures Built(WithRecord(records, e)).Ok?
  {
    hide Insertion, LineageUpTo, SpendUpTo, PlaceOf;
    RecordInserts(records, e);
    LineageStands(EventsOf(records), PlaceOf(EventsOf(records), e), e);
  }

  lemma LineageStands(es: seq<Event>, at: nat, e: Event)
    requires at <= |es| && e.body.Spends? && LineageUpTo(es, |es|).Ok?
    ensures LineageUpTo(Insertion(es, at, e), |Insertion(es, at, e)|).Ok?
  {
    hide Insertion, LineageUpTo;
    var fs := Insertion(es, at, e);
    InsertionAt(es, at, e);
    ActivityLineage.FailsIffIntroductionsDisagree(es, |es|);
    ActivityLineage.FailsIffIntroductionsDisagree(fs, |fs|);
    forall i, j | 0 <= i < j < |fs| ensures !ActivityLineage.Disagree(fs[i], fs[j]) {
      assert i != at && j != at ==> !ActivityLineage.Disagree(es[if i < at then i else i - 1], es[if j < at then j else j - 1]);
    }
  }

  lemma ModelTotals(records: seq<Option<Event>>, g: Group)
    requires Built(records).Ok?
    ensures SpentOn(Built(records).value, g) == Total(EventsOf(records), 0, |EventsOf(records)|, g)
    ensures Built(records).value.events == EventsOf(records)
  {
    AmountsAreTotal(EventsOf(records), |EventsOf(records)|, g);
  }

  lemma LastInOrder(es: seq<Event>, k: nat, e: Event)
    requires Ordered(es) && k < |es| && SameUsage(es[k], e)
    requires forall j :: 0 <= j < |es| && SameUsage(es[j], e) ==> EventKey(es[j]).Le(EventKey(es[k]))
    ensures LastOf(es, k, e)
  {
    forall j | k < j < |es| ensures !SameUsage(es[k], es[j]) {
      assert es[k].id != es[j].id && EventKey(es[k]).Le(EventKey(es[j]));
      assert SameUsage(es[k], es[j]) ==> SameUsage(es[j], e);
    }
  }

  /** Where the last report of a usage is. */
  lemma PlaceOfLast(records: seq<Option<Event>>, x: Event, e: Event) returns (k: nat)
    requires Consistent(Evidence(records)) && LastReport(records, x, e)
    ensures k < |EventsOf(records)| && EventsOf(records)[k] == x && LastOf(EventsOf(records), k, e)
  {
    hide Evidence, LastOf, Ordered, EventsOf;
    var es := EventsOf(records);
    EventsOrdered(records);
    assert x in es;
    k :| 0 <= k < |es| && es[k] == x;
    forall j | 0 <= j < |es| && SameUsage(es[j], e) ensures EventKey(es[j]).Le(EventKey(x)) {
      assert es[j] in Elements(es);
    }
    LastInOrder(es, k, e);
  }

  /** A report after the last of its usage takes that one's place, in its own group, on the usage's day. */
  lemma CorrectionReplaces(records: seq<Option<Event>>, e: Event, x: Event, g: Group)
    requires NewTo(records, e) && Built(records).Ok? && LastReport(records, x, e) && Earlier(x, e)
    ensures var more := Built(WithRecord(records, e));
            var was := GroupOf(Built(records).value.events, x);
            var now := was.(identity := e.identity, profile := e.profile, currency := e.body.cost.currency);
            && more.Ok?
            && SpentOn(more.value, g) ==
               SpentOn(Built(records).value, g).Minus(OnlyIf(was == g, Worth(x))).Plus(OnlyIf(now == g, Worth(e)))
  {
    hide Built, EventsOf, Evidence, LastOf, Booked, Total, GroupOf, Worth;
    var es := EventsOf(records);
    var at := PlaceOf(es, e);
    var k := PlaceOfLast(records, x, e);
    EventsOrdered(records);
    LastBefore(records, k, e);
    RecordInserts(records, e);
    StillBuilt(records, e);
    ModelTotals(records, g);
    ModelTotals(WithRecord(records, e), g);
    OnlyLastMoves(es, at, e, k, g);
    InsertedTotals(es, at, e, k, g);
    CorrectionBooked(es, at, e, k, g);
    LastBooked(es, k, e, g);
  }

  lemma LastBooked(es: seq<Event>, k: nat, e: Event, g: Group)
    requires k < |es| && LastOf(es, k, e)
    ensures Booked(es, k, g) == OnlyIf(GroupOf(es, es[k]) == g, Worth(es[k]))
  {
  }

  lemma LastBefore(records: seq<Option<Event>>, k: nat, e: Event)
    requires NewTo(records, e) && k < |EventsOf(records)|
    ensures var es := EventsOf(records);
            Earlier(es[k], e) <==> k < PlaceOf(es, e)
  {
    EventsOrdered(records);
    var es := EventsOf(records);
    assert es[k] in Elements(es);
    hide EventsOf;
    PlaceSplits(es, e, k);
  }

  /** A report that arrives after a later one of its usage is booked nowhere; but if it is the first of the usage, it
      moves the last one's amounts to its own day. */
  lemma LateReportRebooks(records: seq<Option<Event>>, e: Event, x: Event, g: Group)
    requires NewTo(records, e) && Built(records).Ok? && LastReport(records, x, e) && Earlier(e, x)
    ensures var more := Built(WithRecord(records, e));
            var was := GroupOf(Built(records).value.events, x);
            var now := was.(day := if FirstOf(records, e) then DayOf(e) else was.day);
            && more.Ok?
            && SpentOn(more.value, g) ==
               SpentOn(Built(records).value, g).Minus(OnlyIf(was == g, Worth(x))).Plus(OnlyIf(now == g, Worth(x)))
  {
    hide Built, EventsOf, Evidence, LastOf, Booked, Total, GroupOf, Worth, FirstAt, FirstOf, Earlier;
    var es := EventsOf(records);
    var at := PlaceOf(es, e);
    var k := PlaceOfLast(records, x, e);
    EventsOrdered(records);
    LastBefore(records, k, e);
    KeysDiffer(records, e, x);
    RecordInserts(records, e);
    StillBuilt(records, e);
    ModelTotals(records, g);
    ModelTotals(WithRecord(records, e), g);
    OnlyLastMoves(es, at, e, k, g);
    InsertedTotals(es, at, e, k, g);
    EarlierBooked(es, at, e, k, g);
    LastBooked(es, k, e, g);
    FirstIsFirstAt(records, e);
  }

  /** `e` is before every report of its usage among the records. */
  ghost predicate FirstOf(records: seq<Option<Event>>, e: Event)
  {
    forall y :: y in Evidence(records) && SameUsage(y, e) ==> Earlier(e, y)
  }

  lemma KeysDiffer(records: seq<Option<Event>>, e: Event, x: Event)
    requires NewTo(records, e) && x in Evidence(records)
    ensures Earlier(e, x) <==> !Earlier(x, e)
  {
  }

  lemma FirstIsFirstAt(records: seq<Option<Event>>, e: Event)
    requires NewTo(records, e)
    ensures FirstOf(records, e) <==> FirstAt(EventsOf(records), PlaceOf(EventsOf(records), e), e)
  {
    hide EventsOf, Evidence, PlaceOf, Ordered;
    var es := EventsOf(records);
    EventsOrdered(records);
    forall j | 0 <= j < |es| ensures es[j] in Evidence(records) && (Earlier(es[j], e) <==> j < PlaceOf(es, e)) {
      assert es[j] in Elements(es);
      LastBefore(records, j, e);
    }
    forall y | y in Evidence(records) ensures exists j :: 0 <= j < |es| && es[j] == y {
      assert y in es;
    }
  }

  /** The first report of a usage adds its worth to one group. */
  lemma FirstReportAdds(records: seq<Option<Event>>, e: Event, g: Group)
    requires NewTo(records, e) && Built(records).Ok? && e.body.Spends?
    requires forall y :: y in Evidence(records) ==> !SameUsage(y, e)
    ensures var more := Built(WithRecord(records, e));
            && more.Ok?
            && SpentOn(more.value, g) ==
               SpentOn(Built(records).value, g)
               .Plus(OnlyIf(Group(DayOf(e), e.identity, e.profile, e.body.cost.currency) == g, Worth(e)))
  {
    hide Built, EventsOf, Evidence, Booked, Total, Worth;
    var es := EventsOf(records);
    var at := PlaceOf(es, e);
    EventsOrdered(records);
    forall j | 0 <= j < |es| ensures !SameUsage(es[j], e) {
      assert es[j] in Elements(es);
    }
    RecordInserts(records, e);
    StillBuilt(records, e);
    ModelTotals(records, g);
    ModelTotals(WithRecord(records, e), g);
    forall i | 0 <= i < |es| ensures Booked(Insertion(es, at, e), Shifted(at, i), g) == Booked(es, i, g) {
      OtherUsagesKeep(es, at, e, i, g);
    }
    StretchTotals(es, at, e, 0, |es|, g);
    FirstBooked(es, at, e, g);
  }
}

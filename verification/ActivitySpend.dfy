/** Spend totals as sums over the latest report of each usage. */
module ActivitySpend {
  import opened Basics
  import opened Activity

  datatype Amounts = Amounts(exact: real, estimated: real, unavailable: int)
  {
    function Plus(that: Amounts): Amounts
    {
      Amounts(exact + that.exact, estimated + that.estimated, unavailable + that.unavailable)
    }

    function Minus(that: Amounts): Amounts
    {
      Amounts(exact - that.exact, estimated - that.estimated, unavailable - that.unavailable)
    }
  }

  const NOTHING := Amounts(0.0, 0.0, 0)

  function Worth(e: Event): Amounts
    requires e.body.Spends?
  {
    var c := e.body.cost;
    match c.status
    case Exact => Amounts(c.amount, 0.0, 0)
    case Estimated => Amounts(0.0, c.amount, 0)
    case Unavailable => Amounts(0.0, 0.0, 1)
  }

  /** The `i`-th event is the latest report of its usage and is booked in `g`. */
  predicate Counts(es: seq<Event>, i: nat, g: Group)
    requires i < |es|
  {
    LatestReport(es, i) && GroupOf(es, es[i]) == g
  }

  function Booked(es: seq<Event>, i: nat, g: Group): Amounts
    requires i < |es|
  {
    if Counts(es, i, g) then Worth(es[i]) else NOTHING
  }

  /** What the reports `lo` to `hi` bring to `g`. */
  function Total(es: seq<Event>, lo: nat, hi: nat, g: Group): Amounts
    requires lo <= hi <= |es|
    decreases hi
  {
    if lo == hi then NOTHING else Total(es, lo, hi - 1, g).Plus(Booked(es, hi - 1, g))
  }

  function BookedIds(es: seq<Event>, n: nat, g: Group): seq<Id>
    requires n <= |es|
  {
    if n == 0 then [] else BookedIds(es, n - 1, g) + if Counts(es, n - 1, g) then [es[n - 1].id] else []
  }

  function AmountsOf(s: Spend): Amounts
  {
    Amounts(s.exact, s.estimated, s.unavailable)
  }

  /** What the map holds for `g`; a group it lacks has spent nothing. */
  function SpendOf(spend: map<Group, Spend>, g: Group): Spend
  {
    if g in spend then spend[g] else NO_SPEND
  }

  lemma SpendStep(es: seq<Event>, n: nat, g: Group)
    requires n < |es|
    ensures g in SpendUpTo(es, n + 1) <==> g in SpendUpTo(es, n) || Counts(es, n, g)
    ensures SpendOf(SpendUpTo(es, n + 1), g) ==
            if Counts(es, n, g) then Added(SpendOf(SpendUpTo(es, n), g), es[n]) else SpendOf(SpendUpTo(es, n), g)
  {
  }

  lemma {:induction false} GroupsAreBooked(es: seq<Event>, n: nat, g: Group)
    requires n <= |es|
    ensures g in SpendUpTo(es, n) <==> exists i :: 0 <= i < n && Counts(es, i, g)
  {
    if n > 0 {
      hide SpendUpTo, Counts;
      GroupsAreBooked(es, n - 1, g);
      SpendStep(es, n - 1, g);
    }
  }

  /** A group's amounts are the sum over the latest reports booked in it. */
  lemma {:induction false} AmountsAreTotal(es: seq<Event>, n: nat, g: Group)
    requires n <= |es|
    ensures AmountsOf(SpendOf(SpendUpTo(es, n), g)) == Total(es, 0, n, g)
  {
    if n > 0 {
      hide SpendUpTo, Counts, SpendOf, AmountsOf, Added;
      AmountsAreTotal(es, n - 1, g);
      SpendStep(es, n - 1, g);
      if Counts(es, n - 1, g) {
        CountsSpends(es, n - 1, g);
        AddedWorth(SpendOf(SpendUpTo(es, n - 1), g), es[n - 1]);
      }
    }
  }

  /** A group's ids are those of the latest reports booked in it, in order. */
  lemma {:induction false} IdsAreBooked(es: seq<Event>, n: nat, g: Group)
    requires n <= |es|
    ensures SpendOf(SpendUpTo(es, n), g).eventIds == BookedIds(es, n, g)
  {
    if n > 0 {
      hide SpendUpTo, Counts, SpendOf;
      IdsAreBooked(es, n - 1, g);
      SpendStep(es, n - 1, g);
      if Counts(es, n - 1, g) {
        CountsSpends(es, n - 1, g);
      }
    }
  }

  /** A group exists for the latest reports booked in it, and holds their sum and their ids in order. */
  lemma SpendIsTotal(es: seq<Event>, g: Group)
    ensures g in SpendUpTo(es, |es|) <==> exists i :: 0 <= i < |es| && Counts(es, i, g)
    ensures g in SpendUpTo(es, |es|) ==>
              && AmountsOf(SpendUpTo(es, |es|)[g]) == Total(es, 0, |es|, g)
              && SpendUpTo(es, |es|)[g].eventIds == BookedIds(es, |es|, g)
  {
    GroupsAreBooked(es, |es|, g);
    AmountsAreTotal(es, |es|, g);
    IdsAreBooked(es, |es|, g);
  }

  lemma CountsSpends(es: seq<Event>, i: nat, g: Group)
    requires i < |es| && Counts(es, i, g)
    ensures es[i].body.Spends?
  {
  }

  lemma AddedWorth(s: Spend, e: Event)
    requires e.body.Spends?
    ensures AmountsOf(Added(s, e)) == AmountsOf(s).Plus(Worth(e))
  {
  }

  lemma {:induction false} BookedMembers(es: seq<Event>, n: nat, g: Group, i: nat)
    requires n <= |es| && i < |es| && UniqueIds(es)
    ensures es[i].id in BookedIds(es, n, g) <==> i < n && Counts(es, i, g)
    ensures Distinct(BookedIds(es, n, g))
    decreases n
  {
    if n > 0 {
      BookedMembers(es, n - 1, g, i);
      BookedMembers(es, n - 1, g, n - 1);
    }
  }

  lemma {:induction false} LatestExists(es: seq<Event>, lo: nat, u: Usage) returns (i: nat)
    requires lo < |es| && Reports(es[lo], u)
    ensures lo <= i < |es| && Reports(es[i], u) && LatestReport(es, i)
    decreases |es| - lo
  {
    if LatestReport(es, lo) {
      i := lo;
    } else {
      var j :| lo < j < |es| && SameUsage(es[lo], es[j]);
      i := LatestExists(es, j, u);
    }
  }

  /** Each reported usage is spent once: its last report by time and id, on the day of its first. */
  lemma OneReportPerUsage(es: seq<Event>, j: nat) returns (i: nat, f: nat, g: Group)
    requires Ordered(es) && j < |es| && es[j].body.Spends?
    ensures f <= i < |es| && SameUsage(es[i], es[j]) && SameUsage(es[f], es[j])
    ensures forall k :: 0 <= k < |es| && SameUsage(es[k], es[j]) ==> f <= k <= i
    ensures g == Group(DayOf(es[f]), es[i].identity, es[i].profile, es[i].body.cost.currency)
    ensures g in SpendUpTo(es, |es|)
    ensures forall h, k :: 0 <= k < |es| && SameUsage(es[k], es[j]) && h in SpendUpTo(es, |es|) ==>
              (es[k].id in SpendUpTo(es, |es|)[h].eventIds <==> k == i && h == g)
    ensures Distinct(SpendUpTo(es, |es|)[g].eventIds)
  {
    i := LatestExists(es, j, UsageOf(es[j]));
    f := FirstExists(es, j);
    FirstReportIs(es, es[i], f);
    g := GroupOf(es, es[i]);
    SpendIsTotal(es, g);
    assert Counts(es, i, g);
    BookedMembers(es, |es|, g, i);
    forall h, k | 0 <= k < |es| && SameUsage(es[k], es[j]) && h in SpendUpTo(es, |es|)
      ensures es[k].id in SpendUpTo(es, |es|)[h].eventIds <==> k == i && h == g
    {
      SpendIsTotal(es, h);
      BookedMembers(es, |es|, h, k);
      assert LatestReport(es, k) <==> k == i;
    }
  }

  lemma {:induction false} FirstExists(es: seq<Event>, j: nat) returns (f: nat)
    requires j < |es| && es[j].body.Spends?
    ensures f <= j && SameUsage(es[f], es[j]) && forall k :: 0 <= k < f ==> !SameUsage(es[k], es[j])
    decreases j
  {
    if k :| 0 <= k < j && SameUsage(es[k], es[j]) {
      f := FirstExists(es, k);
    } else {
      f := j;
    }
  }

  // Sums over stretches of reports.

  lemma {:induction false} TotalSplits(es: seq<Event>, lo: nat, mid: nat, hi: nat, g: Group)
    requires lo <= mid <= hi <= |es|
    ensures Total(es, lo, hi, g) == Total(es, lo, mid, g).Plus(Total(es, mid, hi, g))
    decreases hi
  {
    if mid < hi {
      TotalSplits(es, lo, mid, hi - 1, g);
    }
  }

  lemma TotalOne(es: seq<Event>, i: nat, g: Group)
    requires i < |es|
    ensures Total(es, i, i + 1, g) == Booked(es, i, g)
  {
  }

  /** Lists that book the same over a stretch total the same over it. */
  lemma {:induction false} SameTotals(es: seq<Event>, fs: seq<Event>, lo: nat, hi: nat, shift: nat, g: Group)
    requires lo <= hi <= |es| && hi + shift <= |fs|
    requires forall i :: lo <= i < hi ==> Booked(es, i, g) == Booked(fs, i + shift, g)
    ensures Total(es, lo, hi, g) == Total(fs, lo + shift, hi + shift, g)
    decreases hi
  {
    if lo < hi {
      SameTotals(es, fs, lo, hi - 1, shift, g);
    }
  }

  lemma SplitAround(es: seq<Event>, k: nat, g: Group)
    requires k < |es|
    ensures Total(es, 0, |es|, g) == Total(es, 0, k, g).Plus(Booked(es, k, g).Plus(Total(es, k + 1, |es|, g)))
  {
    hide Booked, Total, Amounts.Plus;
    TotalSplits(es, 0, k, |es|, g);
    TotalSplits(es, k, k + 1, |es|, g);
    TotalOne(es, k, g);
  }
}

/** The activity read model: evidence records become deduplicated events, memory lineage and spend totals. */
module Activity {
  import opened Basics
  import opened Sorting

  /** Identifiers are opaque tokens with an order. */
  type Id = nat

  datatype Status = Exact | Estimated | Unavailable

  datatype Cost = Cost(usageId: Id, status: Status, amount: real, currency: Option<Id>)

  datatype Mutation = Promoted | Superseded | Suppressed | Deleted

  datatype Memory = Memory(claimId: Id, introducedBy: Id, supersedes: set<Id>, projections: set<Id>)

  datatype Body = Plain | Mutates(mutation: Mutation, memory: Memory) | Spends(cost: Cost)

  /** A projected event. Timestamps are ordered and fall on days. */
  datatype Event = Event(id: Id, ts: nat, identity: Id, profile: Id, session: Id, body: Body)

  const DAY := 86400

  function DayOf(e: Event): nat
  {
    e.ts / DAY
  }

  datatype State = IsCurrent | IsSuperseded | IsSuppressed | IsDeleted

  datatype Claim = Claim(introducedBy: Id, eventId: Id, introduction: Option<Id>, mutationSession: Id,
                         state: State, projections: set<Id>)

  datatype Group = Group(day: nat, identity: Id, profile: Id, currency: Option<Id>)

  datatype Spend = Spend(exact: real, estimated: real, unavailable: nat, eventIds: seq<Id>)

  datatype Model = Model(events: seq<Event>, lineage: map<Id, Claim>, spend: map<Group, Spend>, skipped: nat)

  datatype ModelError = ConflictingEvent | ChangedIntroduction

  // Deduplication and order.

  function EventKey(e: Event): Key
  {
    Key(e.ts, e.id, 0)
  }

  /** The evidence among records; a record of no known kind projects to nothing. */
  function Evidence(records: seq<Option<Event>>): set<Event>
  {
    set r | r in records && r.Some? :: r.value
  }

  ghost predicate Consistent(events: set<Event>)
  {
    forall e, f :: e in events && f in events && e.id == f.id ==> e == f
  }

  ghost predicate UniqueIds(es: seq<Event>)
  {
    forall i, j :: 0 <= i < j < |es| ==> es[i].id != es[j].id
  }

  ghost predicate Ordered(es: seq<Event>)
  {
    UniqueIds(es) && Sorted(EventKey, es)
  }

  // Memory lineage.

  function StateAfter(m: Mutation): State
  {
    match m
    case Promoted => IsCurrent
    case Superseded => IsCurrent
    case Suppressed => IsSuppressed
    case Deleted => IsDeleted
  }

  /** Promotion and supersession retire the claims they list. */
  predicate Retires(e: Event, c: Id)
  {
    e.body.Mutates? && (e.body.mutation.Promoted? || e.body.mutation.Superseded?) && c in e.body.memory.supersedes
  }

  predicate MutatesClaim(e: Event, c: Id)
  {
    e.body.Mutates? && e.body.memory.claimId == c
  }

  function SessionOf(all: seq<Event>, id: Id): Option<Id>
  {
    if all == [] then None
    else if all[0].id == id then Some(all[0].session)
    else SessionOf(all[1..], id)
  }

  function OwnClaim(all: seq<Event>, e: Event): Claim
    requires e.body.Mutates?
  {
    var m := e.body.memory;
    var state := StateAfter(e.body.mutation);
    Claim(m.introducedBy, e.id, SessionOf(all, m.introducedBy), e.session, state,
          if state == IsCurrent then m.projections else {})
  }

  function RetireAll(lineage: map<Id, Claim>, retired: set<Id>): map<Id, Claim>
  {
    map c | c in lineage :: if c in retired then lineage[c].(state := IsSuperseded, projections := {}) else lineage[c]
  }

  /** One event's effect on the lineage. */
  function LineageStep(all: seq<Event>, lineage: map<Id, Claim>, e: Event): Result<map<Id, Claim>, ModelError>
  {
    if !e.body.Mutates? then Ok(lineage)
    else
      var m := e.body.memory;
      if m.claimId in lineage && lineage[m.claimId].introducedBy != m.introducedBy then Err(ChangedIntroduction)
      else
        var own := lineage[m.claimId := OwnClaim(all, e)];
        Ok(if StateAfter(e.body.mutation) == IsCurrent then RetireAll(own, m.supersedes) else own)
  }

  function LineageUpTo(all: seq<Event>, n: nat): Result<map<Id, Claim>, ModelError>
    requires n <= |all|
  {
    if n == 0 then Ok(map[])
    else
      match LineageUpTo(all, n - 1)
      case Err(x) => Err(x)
      case Ok(lineage) => LineageStep(all, lineage, all[n - 1])
  }

  // Spend.

  predicate SameUsage(e: Event, f: Event)
  {
    && e.body.Spends? && f.body.Spends?
    && e.identity == f.identity && e.body.cost.usageId == f.body.cost.usageId
  }

  /** No later event reports on the same usage. */
  predicate LatestReport(es: seq<Event>, i: nat)
    requires i < |es|
  {
    es[i].body.Spends? && forall j :: i < j < |es| ==> !SameUsage(es[i], es[j])
  }

  /** The first event that reports on the usage `es[i]` reports on. */
  function FirstReport(es: seq<Event>, e: Event): Event
  {
    if es == [] then e
    else if SameUsage(es[0], e) then es[0]
    else FirstReport(es[1..], e)
  }

  /** Where a report is booked: on the day its usage was first reported. */
  function GroupOf(es: seq<Event>, e: Event): Group
    requires e.body.Spends?
  {
    Group(DayOf(FirstReport(es, e)), e.identity, e.profile, e.body.cost.currency)
  }

  const NO_SPEND := Spend(0.0, 0.0, 0, [])

  function Added(s: Spend, e: Event): Spend
    requires e.body.Spends?
  {
    var more := s.(eventIds := s.eventIds + [e.id]);
    match e.body.cost.status
    case Exact => more.(exact := s.exact + e.body.cost.amount)
    case Estimated => more.(estimated := s.estimated + e.body.cost.amount)
    case Unavailable => more.(unavailable := s.unavailable + 1)
  }

  function SpendUpTo(es: seq<Event>, n: nat): map<Group, Spend>
    requires n <= |es|
  {
    if n == 0 then map[]
    else
      var before := SpendUpTo(es, n - 1);
      if !LatestReport(es, n - 1) then before
      else
        var g := GroupOf(es, es[n - 1]);
        before[g := Added(if g in before then before[g] else NO_SPEND, es[n - 1])]
  }

  // The whole read model.

  function Dedup(records: seq<Option<Event>>): seq<Event>
  {
    if records == [] then []
    else
      var before := Dedup(records[..|records| - 1]);
      match records[|records| - 1]
      case None => before
      case Some(e) => if e in before then before else before + [e]
  }

  function Skipped(records: seq<Option<Event>>): nat
  {
    if records == [] then 0
    else Skipped(records[..|records| - 1]) + if records[|records| - 1].None? then 1 else 0
  }

  function Built(records: seq<Option<Event>>): Result<Model, ModelError>
  {
    var events := SortBy(EventKey, Dedup(records));
    match LineageUpTo(events, |events|)
    case Err(x) => Err(x)
    case Ok(lineage) => Ok(Model(events, lineage, SpendUpTo(events, |events|), Skipped(records)))
  }

  // The read model as the loops that build it.

  method Deduplicate(records: seq<Option<Event>>) returns (kept: Option<seq<Event>>, skipped: nat)
    ensures kept.Some? <==> Consistent(Evidence(records))
    ensures kept.Some? ==> kept.value == Dedup(records) && UniqueIds(kept.value) && skipped == Skipped(records)
  {
    var unique: map<Id, Event>, order: seq<Event> := map[], [];
    skipped := 0;
    for i := 0 to |records|
      invariant order == Dedup(records[..i]) && skipped == Skipped(records[..i])
      invariant forall id :: id in unique <==> exists e :: e in Evidence(records[..i]) && e.id == id
      invariant forall e :: e in Evidence(records[..i]) <==> e.id in unique && unique[e.id] == e
      invariant forall e :: e in order <==> e in Evidence(records[..i])
      invariant UniqueIds(order)
    {
      assert records[..i + 1][..i] == records[..i];
      match records[i] {
        case None =>
          skipped := skipped + 1;
          assert Evidence(records[..i + 1]) == Evidence(records[..i]);
        case Some(e) =>
          assert Evidence(records[..i + 1]) == Evidence(records[..i]) + {e};
          if e.id in unique && unique[e.id] != e {
            assert unique[e.id] in Evidence(records) && e in Evidence(records);
            return None, skipped;
          }
          if e.id !in unique {
            forall f | f in order ensures f.id != e.id {
              assert f in Evidence(records[..i]);
            }
            order := order + [e];
          }
          unique := unique[e.id := e];
      }
    }
    assert records[..|records|] == records;
    kept := Some(order);
  }

  method ReadLineage(events: seq<Event>) returns (r: Result<map<Id, Claim>, ModelError>)
    ensures r == LineageUpTo(events, |events|)
  {
    var lineage: map<Id, Claim> := map[];
    for i := 0 to |events|
      invariant LineageUpTo(events, i) == Ok(lineage)
    {
      var e := events[i];
      if e.body.Mutates? {
        var m := e.body.memory;
        if m.claimId in lineage && lineage[m.claimId].introducedBy != m.introducedBy {
          FailsForGood(events, i + 1, |events|);
          return Err(ChangedIntroduction);
        }
        lineage := lineage[m.claimId := OwnClaim(events, e)];
        if e.body.mutation.Promoted? || e.body.mutation.Superseded? {
          lineage := RetireAll(lineage, m.supersedes);
        }
      }
    }
    r := Ok(lineage);
  }

  lemma {:induction false} FailsForGood(all: seq<Event>, i: nat, n: nat)
    requires i <= n <= |all| && LineageUpTo(all, i).Err?
    ensures LineageUpTo(all, n).Err? && LineageUpTo(all, n).error == ChangedIntroduction
  {
    if i < n {
      FailsForGood(all, i, n - 1);
    } else if n > 0 && LineageUpTo(all, n - 1).Err? {
      FailsForGood(all, n - 1, n - 1);
    }
  }

  datatype Usage = Usage(identity: Id, usageId: Id)

  function UsageOf(e: Event): Usage
    requires e.body.Spends?
  {
    Usage(e.identity, e.body.cost.usageId)
  }

  predicate Reports(e: Event, u: Usage)
  {
    e.body.Spends? && UsageOf(e) == u
  }

  ghost predicate LastIn(es: seq<Event>, n: nat, u: Usage, id: Id)
    requires n <= |es|
  {
    exists i :: 0 <= i < n && es[i].id == id && Reports(es[i], u) && forall j :: i < j < n ==> !Reports(es[j], u)
  }

  ghost predicate FirstDayIn(es: seq<Event>, n: nat, u: Usage, day: nat)
    requires n <= |es|
  {
    exists i :: 0 <= i < n && DayOf(es[i]) == day && Reports(es[i], u) && forall j :: 0 <= j < i ==> !Reports(es[j], u)
  }

  lemma LastStep(es: seq<Event>, n: nat, u: Usage, id: Id)
    requires n < |es|
    ensures Reports(es[n], u) ==> LastIn(es, n + 1, u, es[n].id)
    ensures !Reports(es[n], u) && LastIn(es, n, u, id) ==> LastIn(es, n + 1, u, id)
  {
  }

  lemma FirstStep(es: seq<Event>, n: nat, u: Usage, day: nat)
    requires n < |es|
    ensures FirstDayIn(es, n, u, day) ==> FirstDayIn(es, n + 1, u, day)
    ensures Reports(es[n], u) && (forall j :: 0 <= j < n ==> !Reports(es[j], u)) ==>
              FirstDayIn(es, n + 1, u, DayOf(es[n]))
  {
  }

  /** The first pass: the last report of each usage, and the day of its first. */
  method IndexUsage(es: seq<Event>) returns (latest: map<Usage, Id>, day: map<Usage, nat>)
    ensures forall i :: 0 <= i < |es| && es[i].body.Spends? ==> UsageOf(es[i]) in latest && UsageOf(es[i]) in day
    ensures forall u :: u in latest ==> LastIn(es, |es|, u, latest[u])
    ensures forall u :: u in day ==> FirstDayIn(es, |es|, u, day[u])
  {
    hide LastIn, FirstDayIn;
    latest, day := map[], map[];
    for i := 0 to |es|
      invariant forall j :: 0 <= j < i && es[j].body.Spends? ==> UsageOf(es[j]) in latest && UsageOf(es[j]) in day
      invariant forall u :: u in latest ==> LastIn(es, i, u, latest[u])
      invariant forall u :: u in day ==> FirstDayIn(es, i, u, day[u])
    {
      var e := es[i];
      forall u | u in latest {
        LastStep(es, i, u, latest[u]);
      }
      forall u | u in day {
        FirstStep(es, i, u, day[u]);
      }
      if e.body.Spends? {
        var u := UsageOf(e);
        LastStep(es, i, u, e.id);
        latest := latest[u := e.id];
        if u !in day {
          FirstStep(es, i, u, DayOf(e));
          day := day[u := DayOf(e)];
        }
      }
    }
  }

  lemma {:induction false} FirstReportIs(es: seq<Event>, e: Event, i: nat)
    requires i < |es| && SameUsage(es[i], e) && forall j :: 0 <= j < i ==> !SameUsage(es[j], e)
    ensures FirstReport(es, e) == es[i]
  {
    if i > 0 {
      FirstReportIs(es[1..], e, i - 1);
    }
  }

  lemma IndexedReport(es: seq<Event>, i: nat, id: Id, day: nat)
    requires UniqueIds(es) && i < |es| && es[i].body.Spends?
    requires LastIn(es, |es|, UsageOf(es[i]), id) && FirstDayIn(es, |es|, UsageOf(es[i]), day)
    ensures es[i].id == id <==> LatestReport(es, i)
    ensures day == DayOf(FirstReport(es, es[i]))
  {
    var u := UsageOf(es[i]);
    assert forall j :: 0 <= j < |es| ==> (Reports(es[j], u) <==> SameUsage(es[i], es[j]));
    var k :| 0 <= k < |es| && es[k].id == id && Reports(es[k], u) && forall j :: k < j < |es| ==> !Reports(es[j], u);
    var f :| 0 <= f < |es| && DayOf(es[f]) == day && Reports(es[f], u) && forall j :: 0 <= j < f ==> !Reports(es[j], u);
    FirstReportIs(es, es[i], f);
  }

  /** The second pass: only the latest report of each usage counts. */
  method ReadSpend(es: seq<Event>) returns (spend: map<Group, Spend>)
    requires UniqueIds(es)
    ensures spend == SpendUpTo(es, |es|)
  {
    hide LastIn, FirstDayIn, UniqueIds, FirstReport;
    var latest, day := IndexUsage(es);
    spend := map[];
    for i := 0 to |es|
      invariant spend == SpendUpTo(es, i)
    {
      var e := es[i];
      if e.body.Spends? {
        IndexedReport(es, i, latest[UsageOf(e)], day[UsageOf(e)]);
        if latest[UsageOf(e)] == e.id {
          var g := Group(day[UsageOf(e)], e.identity, e.profile, e.body.cost.currency);
          spend := spend[g := Added(if g in spend then spend[g] else NO_SPEND, e)];
        }
      }
    }
  }

  method ReadModel(records: seq<Option<Event>>) returns (r: Result<Model, ModelError>)
    ensures r == if !Consistent(Evidence(records)) then Err(ConflictingEvent) else Built(records)
  {
    var kept, skipped := Deduplicate(records);
    if kept.None? {
      return Err(ConflictingEvent);
    }
    var events := SortBy(EventKey, kept.value);
    SortedKeepsUnique(kept.value);
    var lineage := ReadLineage(events);
    if lineage.Err? {
      return Err(lineage.error);
    }
    var spend := ReadSpend(events);
    r := Ok(Model(events, lineage.value, spend, skipped));
  }

  lemma SortedKeepsUnique(es: seq<Event>)
    requires UniqueIds(es)
    ensures Ordered(SortBy(EventKey, es)) && Elements(SortBy(EventKey, es)) == Elements(es)
  {
    var ys := SortBy(EventKey, es);
    SortByPermutes(EventKey, es);
    SortBySorts(EventKey, es);
    PermutationMembers(es, ys);
    PermutationDistinct(es, ys);
    forall i, j | 0 <= i < j < |ys| ensures ys[i].id != ys[j].id {
      assert ys[i] in es && ys[j] in es && ys[i] != ys[j];
    }
  }

  // The model depends on the evidence alone, not on the order or the repetition of its records.

  lemma {:induction false} DedupElements(records: seq<Option<Event>>)
    ensures Elements(Dedup(records)) == Evidence(records)
    ensures Consistent(Evidence(records)) ==> UniqueIds(Dedup(records))
  {
    if records != [] {
      var n := |records| - 1;
      var before := records[..n];
      DedupElements(before);
      assert records == before + [records[n]];
      assert Evidence(records) == Evidence(before) + if records[n].Some? then {records[n].value} else {};
      assert Elements(Dedup(records)) == Elements(Dedup(before)) + if records[n].Some? then {records[n].value} else {};
      if Consistent(Evidence(records)) && records[n].Some? && records[n].value !in Dedup(before) {
        forall e | e in Dedup(before) ensures e.id != records[n].value.id {
          assert e in Evidence(records);
        }
      }
    }
  }

  /** A set of events has one order. */
  lemma {:induction false} OrderUnique(xs: seq<Event>, ys: seq<Event>)
    requires Ordered(xs) && Ordered(ys) && Elements(xs) == Elements(ys)
    ensures xs == ys
  {
    assert Distinct(xs) && Distinct(ys);
    DistinctSize(xs);
    DistinctSize(ys);
    if xs != [] {
      assert xs[0] in Elements(ys);
      assert ys != [] && ys[0] in Elements(xs);
      var i :| 0 <= i < |xs| && xs[i] == ys[0];
      var j :| 0 <= j < |ys| && ys[j] == xs[0];
      assert EventKey(xs[0]).Le(EventKey(xs[i])) && EventKey(ys[0]).Le(EventKey(ys[j]));
      assert xs[0] == ys[0];
      TailElements(xs);
      TailElements(ys);
      OrderUnique(xs[1..], ys[1..]);
    }
  }

  lemma TailElements(xs: seq<Event>)
    requires UniqueIds(xs) && xs != []
    ensures Elements(xs[1..]) == Elements(xs) - {xs[0]}
  {
    forall e | e in Elements(xs) - {xs[0]} ensures e in xs[1..] {
      var i :| 0 <= i < |xs| && xs[i] == e;
      assert xs[1..][i - 1] == e;
    }
  }

  /** Permuting or repeating records changes neither the events, the lineage, the spend nor the failure. */
  lemma OnlyEvidenceMatters(records: seq<Option<Event>>, others: seq<Option<Event>>)
    requires Evidence(records) == Evidence(others) && Consistent(Evidence(records))
    ensures match (Built(records), Built(others))
            case (Ok(m), Ok(n)) => m == n.(skipped := m.skipped)
            case (Err(x), Err(y)) => x == y
            case _ => false
  {
    DedupElements(records);
    DedupElements(others);
    SortedKeepsUnique(Dedup(records));
    SortedKeepsUnique(Dedup(others));
    OrderUnique(SortBy(EventKey, Dedup(records)), SortBy(EventKey, Dedup(others)));
  }
}

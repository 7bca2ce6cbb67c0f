/** Every run of calendar mutations, and invitations in any order of delivery. */
module CalendarRuns {
  import opened Basics
  import opened Calendar

  // Every mutation.

  ghost predicate RowKept(row: Row)
  {
    && row.id == row.event.id && !Blank(row.id)
    && row.key.calendarId == row.event.calendarId && row.key.uid == row.event.uid
  }

  /** Rows agree with their events, and neither an id nor a key occurs twice. */
  ghost predicate WellKept(rows: seq<Row>)
  {
    && (forall i :: 0 <= i < |rows| ==> RowKept(rows[i]))
    && (forall i, j :: 0 <= i < j < |rows| ==> rows[i].id != rows[j].id && rows[i].key != rows[j].key)
  }

  /** The row is as it was, or its event has been revised once. */
  ghost predicate RevisedOnce(before: Row, after: Row)
  {
    && after.id == before.id && after.key == before.key
    && after.event.id == before.event.id && after.event.calendarId == before.event.calendarId
    && after.event.uid == before.event.uid && after.event.createdAt == before.event.createdAt
    && (after == before || after.event.revision == before.event.revision + 1)
  }

  /** One row has been revised or added, and nothing else has changed. */
  ghost predicate OneChange(before: seq<Row>, after: seq<Row>)
  {
    && |before| <= |after| <= |before| + 1
    && (forall i :: 0 <= i < |before| ==> RevisedOnce(before[i], after[i]))
    && (forall i, j :: 0 <= i < j < |before| && after[i] != before[i] ==> after[j] == before[j])
    && (|after| > |before| ==> after[..|before|] == before && after[|before|].event.revision == 1)
  }

  lemma RowOfIdAt(rows: seq<Row>, i: nat)
    requires WellKept(rows) && i < |rows|
    ensures RowOfId(rows, rows[i].id) == i && RowOfKey(rows, rows[i].key) == i
  {
    var j, k := RowOfId(rows, rows[i].id), RowOfKey(rows, rows[i].key);
    assert j <= i && k <= i;
  }

  lemma RevisedShape(e: Event, p: Patch, now: nat)
    requires Revised(e, p, now).Ok?
    ensures var r := Revised(e, p, now).value;
            && r.id == e.id && r.uid == e.uid && r.calendarId == e.calendarId && r.createdAt == e.createdAt
            && r.revision == e.revision + 1
  {
  }

  lemma MadeShape(p: Patch, id: string, uid: string, now: nat)
    requires Made(p, id, uid, now).Ok?
    ensures var e := Made(p, id, uid, now).value; e.id == id && !Blank(id) && e.revision == 1
  {
  }

  lemma CurrentIsARow(db: Db, q: Request) returns (i: nat)
    requires WellKept(db.rows) && Current(db, q).Some?
    ensures i < |db.rows| && db.rows[i].event == Current(db, q).value && RowOfId(db.rows, Current(db, q).value.id) == i
  {
    if q.id.Some? && Read(db, q.id.value).Some? {
      i := RowOfId(db.rows, q.id.value);
    } else {
      i := RowOfKey(db.rows, q.key.value);
    }
    RowOfIdAt(db.rows, i);
    assert RowKept(db.rows[i]);
  }

  /** Replacing a row by a revision of it keeps the table's shape. */
  lemma ReplacedKeeps(rows: seq<Row>, i: nat, row: Row)
    requires WellKept(rows) && i < |rows| && RowKept(row) && RevisedOnce(rows[i], row)
    ensures WellKept(rows[i := row]) && OneChange(rows, rows[i := row])
  {
  }

  lemma AppendedKeeps(rows: seq<Row>, row: Row)
    requires WellKept(rows) && RowKept(row) && row.event.revision == 1
    requires RowOfId(rows, row.id) == |rows| && RowOfKey(rows, row.key) == |rows|
    ensures WellKept(rows + [row]) && OneChange(rows, rows + [row])
  {
    hide RowKept, RowOfId, RowOfKey;
    AppendIsOneChange(rows, row);
    hide OneChange;
    var more := rows + [row];
    forall i | 0 <= i < |more| ensures RowKept(more[i]) {
      assert more[i] == if i < |rows| then rows[i] else row;
    }
    forall i, j | 0 <= i < j < |more| ensures more[i].id != more[j].id && more[i].key != more[j].key {
      assert more[i] == rows[i] && more[j] == if j < |rows| then rows[j] else row;
    }
  }

  lemma AppendIsOneChange(rows: seq<Row>, row: Row)
    requires row.event.revision == 1
    ensures OneChange(rows, rows + [row])
  {
    assert forall i :: 0 <= i < |rows| ==> (rows + [row])[i] == rows[i];
  }

  /** Ids, UIDs, calendars and creation times never change, rows are never removed, and each change of an event is one
      revision of one event. */
  lemma MutationKeepsIdentity(db: Db, trusted: seq<string>, q: Request)
    requires WellKept(db.rows)
    requires q.action.Create? ==> RowOfId(db.rows, q.newId) == |db.rows|
    ensures WellKept(Mutated(db, trusted, q).db.rows) && OneChange(db.rows, Mutated(db, trusted, q).db.rows)
  {
    hide WellKept, OneChange, Allowed, Made, Revised, Blank;
    var after := Mutated(db, trusted, q).db;
    Unchanged(db.rows);
    if after != db {
      if q.action.Create? {
        var e := Made(q.patch, q.newId, q.newUid, q.now).value;
        MadeShape(q.patch, q.newId, q.newUid, q.now);
        AppendedKeeps(db.rows, Row(e.id, KeyOf(e), e, false));
      } else {
        var i := CurrentIsARow(db, q);
        KeptAt(db.rows, i);
        var e := db.rows[i].event;
        if q.action.Delete? {
          ReplacedKeeps(db.rows, i, db.rows[i].(event := e.(revision := e.revision + 1, updatedAt := q.now), deleted := true));
        } else {
          var patch := if q.action.Cancel? then q.patch.(status := Some(Cancelled)) else q.patch;
          RevisedShape(e, patch, q.now);
          ReplacedKeeps(db.rows, i, Row(e.id, db.rows[i].key, Revised(e, patch, q.now).value, false));
        }
      }
    }
  }

  lemma KeptAt(rows: seq<Row>, i: nat)
    requires WellKept(rows) && i < |rows|
    ensures RowKept(rows[i])
  {
  }

  lemma Unchanged(rows: seq<Row>)
    ensures OneChange(rows, rows)
  {
  }

  // Runs of mutations and invitations.

  datatype Delivery = Delivery(proposal: Proposal, newId: string, newUid: string, now: nat)

  datatype Step = Mutation(request: Request) | Invitation(calendarId: string, delivery: Delivery)
  {
    function NewId(): string
    {
      if Mutation? then request.newId else delivery.newId
    }
  }

  function Taken(db: Db, trusted: seq<string>, step: Step): Outcome
  {
    match step
    case Mutation(q) => Mutated(db, trusted, q)
    case Invitation(cal, d) => Applied(db, trusted, cal, d.proposal, d.newId, d.newUid, d.now)
  }

  function Ran(db: Db, trusted: seq<string>, steps: seq<Step>): Db
  {
    if steps == [] then db else Taken(Ran(db, trusted, steps[..|steps| - 1]), trusted, steps[|steps| - 1]).db
  }

  /** The identifier drawn at each step is in use at no row by then. */
  ghost predicate FreshIds(db: Db, trusted: seq<string>, steps: seq<Step>)
  {
    steps == [] ||
    (var before := Ran(db, trusted, steps[..|steps| - 1]);
     && FreshIds(db, trusted, steps[..|steps| - 1])
     && RowOfId(before.rows, steps[|steps| - 1].NewId()) == |before.rows|)
  }

  lemma StepKeepsIdentity(db: Db, trusted: seq<string>, step: Step)
    requires WellKept(db.rows) && RowOfId(db.rows, step.NewId()) == |db.rows|
    ensures WellKept(Taken(db, trusted, step).db.rows) && OneChange(db.rows, Taken(db, trusted, step).db.rows)
  {
    hide WellKept, OneChange, Mutated, Allowed;
    Unchanged(db.rows);
    match step
    case Mutation(q) => MutationKeepsIdentity(db, trusted, q);
    case Invitation(cal, d) =>
      var current := ReadByUid(db, Key(cal, d.proposal.uid, d.proposal.recurrenceId));
      if !d.proposal.cancels || current.Some? {
        MutationKeepsIdentity(db, trusted, Asked(cal, d.proposal, current, d.newId, d.newUid, d.now));
      }
  }

  /** How many steps of a run change the row in place `i`. */
  function Changes(db: Db, trusted: seq<string>, steps: seq<Step>, i: nat): nat
  {
    if steps == [] then 0
    else
      var before, after := Ran(db, trusted, steps[..|steps| - 1]).rows, Ran(db, trusted, steps).rows;
      var changed := i < |before| && i < |after| && before[i] != after[i];
      Changes(db, trusted, steps[..|steps| - 1], i) + if changed then 1 else 0
  }

  /** Over any run each row stays in place under its id and key, its event keeps its id, calendar, UID and creation
      time, and its revision grows by one at each step that changes it. */
  lemma {:induction false} RunsKeepIdentity(db: Db, trusted: seq<string>, steps: seq<Step>, i: nat)
    requires WellKept(db.rows) && FreshIds(db, trusted, steps) && i < |db.rows|
    ensures var rows := Ran(db, trusted, steps).rows;
            && WellKept(rows) && |db.rows| <= |rows|
            && rows[i].id == db.rows[i].id && rows[i].key == db.rows[i].key
            && rows[i].event.id == db.rows[i].event.id && rows[i].event.calendarId == db.rows[i].event.calendarId
            && rows[i].event.uid == db.rows[i].event.uid && rows[i].event.createdAt == db.rows[i].event.createdAt
            && rows[i].event.revision == db.rows[i].event.revision + Changes(db, trusted, steps, i)
    decreases |steps|
  {
    if steps != [] {
      hide WellKept, Taken;
      RunsKeepIdentity(db, trusted, steps[..|steps| - 1], i);
      var before := Ran(db, trusted, steps[..|steps| - 1]);
      StepKeepsIdentity(before, trusted, steps[|steps| - 1]);
      assert RevisedOnce(before.rows[i], Ran(db, trusted, steps).rows[i]);
    }
  }

  lemma StepKeepsOperations(db: Db, trusted: seq<string>, step: Step, id: string)
    requires id in db.operations
    ensures id in Taken(db, trusted, step).db.operations && Taken(db, trusted, step).db.operations[id] == db.operations[id]
  {
    hide Made, Revised, Allowed, RowOfId, RowOfKey;
  }

  lemma {:induction false} RunKeepsOperations(db: Db, trusted: seq<string>, steps: seq<Step>, id: string)
    requires id in db.operations
    ensures id in Ran(db, trusted, steps).operations && Ran(db, trusted, steps).operations[id] == db.operations[id]
    decreases |steps|
  {
    if steps != [] {
      hide Taken;
      RunKeepsOperations(db, trusted, steps[..|steps| - 1], id);
      StepKeepsOperations(Ran(db, trusted, steps[..|steps| - 1]), trusted, steps[|steps| - 1], id);
    }
  }

  /** A successful request repeated after any others, invitations included, changes nothing and is answered as
      before. */
  lemma ReplayChangesNothing(db: Db, trusted: seq<string>, first: Request, steps: seq<Step>, again: Request)
    requires Mutated(db, trusted, first).reply.Ok? && again.policy == first.policy
    ensures var later := Ran(Mutated(db, trusted, first).db, trusted, steps);
            Mutated(later, trusted, again) == Outcome(later, Ok(Reply(Mutated(db, trusted, first).reply.value.event, true)))
  {
    RunKeepsOperations(Mutated(db, trusted, first).db, trusted, steps, first.policy.operationId);
  }

  // Invitations in any order.

  function Delivered(db: Db, trusted: seq<string>, cal: string, ds: seq<Delivery>): Db
  {
    if ds == [] then db
    else
      var last := ds[|ds| - 1];
      Applied(Delivered(db, trusted, cal, ds[..|ds| - 1]), trusted, cal, last.proposal, last.newId, last.newUid, last.now).db
  }

  /** The event without what is assigned to it here. */
  function Content(e: Event): Event
  {
    e.(id := "", revision := 0, createdAt := 0, updatedAt := 0)
  }

  function Offered(cal: string, p: Proposal): Result<Event, Failure>
  {
    Made(p.patch.(calendarId := Some(cal)), "x", "x", 0)
  }

  /** A trusted request for one event: complete, valid, and carrying its sequence. */
  ghost predicate Requests(d: Delivery, trusted: seq<string>, key: Key)
  {
    var p := d.proposal;
    && !p.cancels && Allowed(p.policy, trusted) && !Blank(d.newId)
    && p.uid == key.uid && p.recurrenceId == key.recurrence
    && p.patch.uid == Some(key.uid) && p.patch.recurrenceId == Some(key.recurrence)
    && p.patch.status.Some? && p.patch.title.Some? && p.patch.description.Some? && p.patch.location.Some?
    && p.patch.start.Some? && p.patch.end.Some? && p.patch.recurrence.Some? && p.patch.attendees.Some?
    && p.patch.category.None? && p.patch.color.None?
    && p.patch.provenance.Some? && p.patch.provenance.value.Inbound? && p.patch.provenance.value.sourceRevision == p.sourceRevision
    && Offered(key.calendarId, p).Ok?
  }

  /** Requests for one event that the table does not know yet, of distinct sequences and operations. */
  ghost predicate Batch(db: Db, trusted: seq<string>, key: Key, ds: seq<Delivery>)
  {
    && WellKept(db.rows) && RowOfKey(db.rows, key) == |db.rows|
    && (forall i :: 0 <= i < |ds| ==>
          && Requests(ds[i], trusted, key)
          && RowOfId(db.rows, ds[i].newId) == |db.rows|
          && ds[i].proposal.policy.operationId !in db.operations)
    && forall i, j :: 0 <= i < j < |ds| ==>
         && ds[i].proposal.sourceRevision != ds[j].proposal.sourceRevision
         && ds[i].proposal.policy.operationId != ds[j].proposal.policy.operationId
  }

  /** The place of the highest sequence. */
  function Highest(ds: seq<Delivery>): (m: nat)
    requires ds != []
    ensures m < |ds|
    ensures forall i :: 0 <= i < |ds| ==> ds[i].proposal.sourceRevision <= ds[m].proposal.sourceRevision
  {
    if |ds| == 1 then 0
    else
      var m := Highest(ds[..|ds| - 1]);
      if ds[m].proposal.sourceRevision < ds[|ds| - 1].proposal.sourceRevision then |ds| - 1 else m
  }

  /** How many deliveries exceed all before them. */
  function Records(ds: seq<Delivery>): nat
  {
    if ds == [] then 0
    else Records(ds[..|ds| - 1]) + if Highest(ds) == |ds| - 1 then 1 else 0
  }

  /** Only the operations of delivered requests have been recorded since. */
  ghost predicate OnlyTheirs(db: Db, now: Db, ds: seq<Delivery>)
  {
    forall id :: id in now.operations ==> id in db.operations || exists i :: 0 <= i < |ds| && ds[i].proposal.policy.operationId == id
  }

  /** A request for an unknown event makes it. */
  lemma FirstRequest(db: Db, trusted: seq<string>, key: Key, d: Delivery)
    requires WellKept(db.rows) && Requests(d, trusted, key) && RowOfKey(db.rows, key) == |db.rows|
    requires RowOfId(db.rows, d.newId) == |db.rows| && d.proposal.policy.operationId !in db.operations
    ensures var after := Applied(db, trusted, key.calendarId, d.proposal, d.newId, d.newUid, d.now).db;
            && WellKept(after.rows)
            && ReadByUid(after, key).Some? && ReadByUid(after, key).value.revision == 1
            && Content(ReadByUid(after, key).value) == Content(Offered(key.calendarId, d.proposal).value)
            && after.operations.Keys == db.operations.Keys + {d.proposal.policy.operationId}
  {
    var p := d.proposal;
    var made := Made(p.patch.(calendarId := Some(key.calendarId)), d.newId, d.newUid, d.now);
    assert made.Ok? && KeyOf(made.value) == key;
    var row := Row(made.value.id, key, made.value, false);
    AppendedKeeps(db.rows, row);
    RowOfIdAt(db.rows + [row], |db.rows|);
  }

  lemma HigherRevises(e: Event, trusted: seq<string>, key: Key, d: Delivery)
    requires Requests(d, trusted, key) && e.calendarId == key.calendarId && e.uid == key.uid && !Blank(e.id)
    requires e.category.None? && e.color.None?
    ensures var r := Revised(e, d.proposal.patch.(calendarId := Some(key.calendarId)), d.now);
            r.Ok? && Content(r.value) == Content(Offered(key.calendarId, d.proposal).value)
  {
  }

  /** A request of a higher sequence revises the event. */
  lemma HigherRequest(db: Db, trusted: seq<string>, key: Key, d: Delivery)
    requires WellKept(db.rows) && Requests(d, trusted, key) && ReadByUid(db, key).Some?
    requires var e := ReadByUid(db, key).value; e.category.None? && e.color.None? && d.proposal.sourceRevision > Prior(Some(e))
    requires d.proposal.policy.operationId !in db.operations
    ensures var after := Applied(db, trusted, key.calendarId, d.proposal, d.newId, d.newUid, d.now).db;
            && WellKept(after.rows)
            && ReadByUid(after, key).Some? && ReadByUid(after, key).value.revision == ReadByUid(db, key).value.revision + 1
            && Content(ReadByUid(after, key).value) == Content(Offered(key.calendarId, d.proposal).value)
            && after.operations.Keys == db.operations.Keys + {d.proposal.policy.operationId}
  {
    hide WellKept, Blank, Made, Revised, OneChange, LowerAll;
    var i := RowOfKey(db.rows, key);
    var e := db.rows[i].event;
    RowOfIdAt(db.rows, i);
    KeptAt(db.rows, i);
    var patch := d.proposal.patch.(calendarId := Some(key.calendarId));
    HigherRevises(e, trusted, key, d);
    RevisedShape(e, patch, d.now);
    var revised := Revised(e, patch, d.now).value;
    var row := Row(e.id, db.rows[i].key, revised, false);
    ReplacedKeeps(db.rows, i, row);
    RowOfIdAt(db.rows[i := row], i);
  }

  lemma OfferedFields(trusted: seq<string>, key: Key, d: Delivery, e: Event)
    requires Requests(d, trusted, key) && Content(e) == Content(Offered(key.calendarId, d.proposal).value)
    ensures e.category.None? && e.color.None? && Prior(Some(e)) == d.proposal.sourceRevision
  {
    var o := Offered(key.calendarId, d.proposal).value;
    assert Content(e).category == Content(o).category && Content(e).color == Content(o).color;
    assert Content(e).provenance == Content(o).provenance;
  }

  lemma BatchPrefix(db: Db, trusted: seq<string>, key: Key, ds: seq<Delivery>)
    requires Batch(db, trusted, key, ds) && ds != []
    ensures Batch(db, trusted, key, ds[..|ds| - 1])
    ensures Requests(ds[|ds| - 1], trusted, key)
    ensures forall i :: 0 <= i < |ds| - 1 ==>
              && ds[i].proposal.sourceRevision != ds[|ds| - 1].proposal.sourceRevision
              && ds[i].proposal.policy.operationId != ds[|ds| - 1].proposal.policy.operationId
    ensures ds[|ds| - 1].proposal.policy.operationId !in db.operations && RowOfId(db.rows, ds[|ds| - 1].newId) == |db.rows|
  {
  }

  /** What the deliveries so far have made of the event. */
  ghost predicate Reached(db: Db, now: Db, trusted: seq<string>, key: Key, ds: seq<Delivery>)
  {
    && WellKept(now.rows) && OnlyTheirs(db, now, ds)
    && if ds == [] then now == db
       else
         && ReadByUid(now, key).Some? && ReadByUid(now, key).value.revision == Records(ds)
         && Offered(key.calendarId, ds[Highest(ds)].proposal).Ok?
         && Content(ReadByUid(now, key).value) == Content(Offered(key.calendarId, ds[Highest(ds)].proposal).value)
  }

  /** Whatever the order of delivery, the event ends with the content of the highest sequence, and its revision counts
      the deliveries that exceeded all before them. */
  lemma {:induction false} InvitationsConverge(db: Db, trusted: seq<string>, key: Key, ds: seq<Delivery>)
    requires Batch(db, trusted, key, ds)
    ensures Reached(db, Delivered(db, trusted, key.calendarId, ds), trusted, key, ds)
    decreases |ds|
  {
    if ds != [] {
      var init, last := ds[..|ds| - 1], ds[|ds| - 1];
      var before := Delivered(db, trusted, key.calendarId, init);
      BatchPrefix(db, trusted, key, ds);
      InvitationsConverge(db, trusted, key, init);
      assert last.proposal.policy.operationId !in before.operations;
      if init == [] {
        FirstDelivery(db, trusted, key, ds);
      } else {
        LaterDelivery(db, before, trusted, key, ds);
      }
    }
  }

  lemma FirstDelivery(db: Db, trusted: seq<string>, key: Key, ds: seq<Delivery>)
    requires Batch(db, trusted, key, ds) && |ds| == 1
    ensures var d := ds[0];
            Reached(db, Applied(db, trusted, key.calendarId, d.proposal, d.newId, d.newUid, d.now).db, trusted, key, ds)
  {
    FirstRequest(db, trusted, key, ds[0]);
    hide Applied, Requests, Offered, WellKept, ReadByUid, Content;
    assert ds[..0] == [];
    assert Records(ds) == 1;
  }

  lemma LaterDelivery(db: Db, before: Db, trusted: seq<string>, key: Key, ds: seq<Delivery>)
    requires |ds| > 1 && Reached(db, before, trusted, key, ds[..|ds| - 1])
    requires Batch(db, trusted, key, ds) && ds[|ds| - 1].proposal.policy.operationId !in before.operations
    ensures var d := ds[|ds| - 1];
            Reached(db, Applied(before, trusted, key.calendarId, d.proposal, d.newId, d.newUid, d.now).db, trusted, key, ds)
  {
    hide Applied, Requests, Offered, WellKept, ReadByUid, Content;
    var init, last := ds[..|ds| - 1], ds[|ds| - 1];
    BatchPrefix(db, trusted, key, ds);
    var e, m := ReadByUid(before, key).value, Highest(init);
    assert Requests(init[m], trusted, key);
    hide Batch;
    OfferedFields(trusted, key, init[m], e);
    if init[m].proposal.sourceRevision < last.proposal.sourceRevision {
      HigherRequest(before, trusted, key, last);
    } else {
      StaleRequest(before, trusted, key, last);
    }
  }

  lemma StaleRequest(db: Db, trusted: seq<string>, key: Key, d: Delivery)
    requires Requests(d, trusted, key) && ReadByUid(db, key).Some? && d.proposal.sourceRevision < Prior(ReadByUid(db, key))
    ensures Applied(db, trusted, key.calendarId, d.proposal, d.newId, d.newUid, d.now) == Outcome(db, Err(Stale))
  {
  }

  /** Two orders of the same deliveries leave the same content. */
  lemma OrderDoesNotMatter(db: Db, trusted: seq<string>, key: Key, ds: seq<Delivery>, es: seq<Delivery>)
    requires Batch(db, trusted, key, ds) && Batch(db, trusted, key, es) && ds != [] && multiset(ds) == multiset(es)
    ensures var one := ReadByUid(Delivered(db, trusted, key.calendarId, ds), key);
            var two := ReadByUid(Delivered(db, trusted, key.calendarId, es), key);
            one.Some? && two.Some? && Content(one.value) == Content(two.value)
  {
    PermutationMembers(ds, es);
    assert ds[0] in es;
    InvitationsConverge(db, trusted, key, ds);
    InvitationsConverge(db, trusted, key, es);
    var d, e := ds[Highest(ds)], es[Highest(es)];
    assert d in es && e in ds;
    var i :| 0 <= i < |es| && es[i] == d;
    var j :| 0 <= j < |ds| && ds[j] == e;
    assert d.proposal.sourceRevision == e.proposal.sourceRevision;
    assert i == Highest(es);
  }
}

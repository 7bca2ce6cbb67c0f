/** What a successful calendar mutation leaves in the table, action by action and field by field. */
module CalendarEffects {
  import opened Basics
  import opened Calendar
  import opened CalendarRuns

  /** The request is carried out, not answered from the record of operations. */
  predicate Succeeds(db: Db, trusted: seq<string>, q: Request)
  {
    var reply := Mutated(db, trusted, q).reply; reply.Ok? && !reply.value.replay
  }

  lemma {:induction false} LoweredMember(s: string, emails: seq<string>)
    ensures s in LowerAll(emails) <==> exists i :: 0 <= i < |emails| && Lower(emails[i]) == s
  {
    if emails != [] {
      LoweredMember(s, emails[1..]);
      assert emails == [emails[0]] + emails[1..];
      if i :| 0 <= i < |emails[1..]| && Lower(emails[1..][i]) == s {
        assert emails[i + 1] == emails[1..][i];
      }
    }
  }

  /** A change needs an operation and a reason, and an agent's approval or an invitation to a trusted recipient, whose
      spelling may differ in case. */
  lemma AllowedIff(p: Policy, trusted: seq<string>)
    ensures Allowed(p, trusted) <==>
            && p.operationId != "" && p.reason != ""
            && (p.origin.Agent? || p.origin.InboundInvitation?)
            && (p.origin.Agent? ==> p.origin.approved && |p.origin.actor| >= 6 && p.origin.actor[..6] == "agent:")
            && (p.origin.InboundInvitation? ==>
                  p.origin.recipient != ""
                  && exists i :: 0 <= i < |trusted| && Lower(trusted[i]) == Lower(p.origin.recipient))
  {
    hide Lower;
    if p.origin.InboundInvitation? {
      LoweredMember(Lower(p.origin.recipient), trusted);
    }
  }

  /** Each field of `e` is the one given, or else that of `base`. */
  predicate TakesFields(e: Event, p: Patch, base: Event)
  {
    && e.title == Or(p.title, base.title) && e.description == Or(p.description, base.description)
    && e.location == Or(p.location, base.location) && e.start == Or(p.start, base.start) && e.end == Or(p.end, base.end)
    && e.category == Or(p.category, base.category) && e.color == Or(p.color, base.color)
    && e.recurrence == Or(p.recurrence, base.recurrence) && e.recurrenceId == Or(p.recurrenceId, base.recurrenceId)
    && e.provenance == Or(p.provenance, base.provenance)
    && |e.attendees| == |Or(p.attendees, base.attendees)|
    && forall i :: 0 <= i < |e.attendees| ==> e.attendees[i] == Lower(Or(p.attendees, base.attendees)[i])
  }

  /** An event of which nothing is known but when it starts and ends. */
  function Bare(p: Patch): Event
    requires p.start.Some? && p.end.Some?
  {
    Event("", "", "", 0, Confirmed, "", None, None, p.start.value, p.end.value, None, None, [], None, [], ByAgent, 0, 0)
  }

  lemma {:induction false} LowerEach(emails: seq<string>, i: nat)
    requires i < |emails|
    ensures LowerAll(emails)[i] == Lower(emails[i])
  {
    if i > 0 {
      LowerEach(emails[1..], i - 1);
    }
  }

  lemma MadeTakes(p: Patch, id: string, uid: string, now: nat)
    requires Made(p, id, uid, now).Ok?
    ensures var e := Made(p, id, uid, now).value;
            && p.start.Some? && p.end.Some? && p.title.Some? && p.calendarId == Some(e.calendarId)
            && TakesFields(e, p, Bare(p)) && e.status == Or(p.status, Confirmed)
            && e.id == id && e.uid == Or(p.uid, uid) && e.revision == 1 && e.createdAt == e.updatedAt == now
  {
    hide Lower, LowerAll, Blank, ValidBoundary, ValueOf;
    var given := Or(p.attendees, []);
    forall i | 0 <= i < |given| ensures LowerAll(given)[i] == Lower(given[i]) {
      LowerEach(given, i);
    }
  }

  lemma RevisedTakes(c: Event, p: Patch, now: nat)
    requires Revised(c, p, now).Ok?
    ensures var e := Revised(c, p, now).value;
            && TakesFields(e, p, c) && e.status == Or(p.status, c.status)
            && e.id == c.id && e.uid == c.uid && e.calendarId == c.calendarId
            && e.revision == c.revision + 1 && e.createdAt == c.createdAt && e.updatedAt == now
  {
    hide Lower, LowerAll, ValidBoundary, ValueOf;
    var given := Or(p.attendees, c.attendees);
    forall i | 0 <= i < |given| ensures LowerAll(given)[i] == Lower(given[i]) {
      LowerEach(given, i);
    }
  }

  /** A new event has the fields given, and is found by its id and by its key. */
  lemma CreateMakes(db: Db, trusted: seq<string>, q: Request)
    requires WellKept(db.rows) && RowOfId(db.rows, q.newId) == |db.rows| && q.action.Create? && Succeeds(db, trusted, q)
    ensures var out := Mutated(db, trusted, q);
            var e := out.reply.value.event;
            && Current(db, q).None? && e.id == q.newId && e.uid == Or(q.patch.uid, q.newUid) && e.revision == 1
            && q.patch.start.Some? && q.patch.end.Some? && q.patch.title.Some? && q.patch.calendarId == Some(e.calendarId)
            && TakesFields(e, q.patch, Bare(q.patch)) && e.status == Or(q.patch.status, Confirmed)
            && e.createdAt == e.updatedAt == q.now
            && Read(out.db, e.id) == Some(e) && ReadByUid(out.db, KeyOf(e)) == Some(e)
  {
    hide WellKept, Made, Allowed, TakesFields;
    MadeTakes(q.patch, q.newId, q.newUid, q.now);
    MutationKeepsIdentity(db, trusted, q);
    RowOfIdAt(Mutated(db, trusted, q).db.rows, |db.rows|);
  }

  /** An update takes the fields given and keeps the others; the event is found where it was. */
  lemma UpdateTakes(db: Db, trusted: seq<string>, q: Request)
    requires WellKept(db.rows) && q.action.Update? && Succeeds(db, trusted, q)
    ensures var out, c := Mutated(db, trusted, q), Current(db, q);
            var e := out.reply.value.event;
            && c.Some? && Revises(e, c.value, q.now) && TakesFields(e, q.patch, c.value)
            && e.status == Or(q.patch.status, c.value.status)
            && FoundAs(db, out.db, c.value, e)
  {
    ChangeTakes(db, trusted, q, q.patch);
  }

  /** A cancelled event has that status, whatever status is asked for. */
  lemma CancelCancels(db: Db, trusted: seq<string>, q: Request)
    requires WellKept(db.rows) && q.action.Cancel? && Succeeds(db, trusted, q)
    ensures var out, c := Mutated(db, trusted, q), Current(db, q);
            var e := out.reply.value.event;
            && c.Some? && Revises(e, c.value, q.now) && TakesFields(e, q.patch, c.value)
            && e.status == Cancelled
            && FoundAs(db, out.db, c.value, e)
  {
    hide WellKept, TakesFields, Mutated, Revises, FoundAs;
    ChangeTakes(db, trusted, q, q.patch.(status := Some(Cancelled)));
    SameFields(Mutated(db, trusted, q).reply.value.event, q.patch, Current(db, q).value);
  }

  lemma SameFields(e: Event, p: Patch, c: Event)
    requires TakesFields(e, p.(status := Some(Cancelled)), c)
    ensures TakesFields(e, p, c)
  {
  }

  predicate Revises(e: Event, c: Event, now: nat)
  {
    && e.id == c.id && e.uid == c.uid && e.calendarId == c.calendarId && e.createdAt == c.createdAt
    && e.revision == c.revision + 1 && e.updatedAt == now
  }

  /** Whoever found `c` finds `e`, and so does who asks for its id. */
  ghost predicate FoundAs(db: Db, db': Db, c: Event, e: Event)
  {
    Read(db', c.id) == Some(e) && forall key :: ReadByUid(db, key) == Some(c) ==> ReadByUid(db', key) == Some(e)
  }

  lemma ChangeTakes(db: Db, trusted: seq<string>, q: Request, patch: Patch)
    requires WellKept(db.rows) && (q.action.Update? || q.action.Cancel?) && Succeeds(db, trusted, q)
    requires patch == if q.action.Cancel? then q.patch.(status := Some(Cancelled)) else q.patch
    ensures var out, c := Mutated(db, trusted, q), Current(db, q);
            var e := out.reply.value.event;
            && c.Some? && Revises(e, c.value, q.now) && TakesFields(e, patch, c.value)
            && e.status == Or(patch.status, c.value.status) && FoundAs(db, out.db, c.value, e)
  {
    hide WellKept, Revised, Allowed, TakesFields, FoundAs, Current, RowOfId, RowOfKey;
    var i := CurrentIsARow(db, q);
    var c := Current(db, q).value;
    RevisedTakes(c, patch, q.now);
    MutationKeepsIdentity(db, trusted, q);
    ReplacedFound(db, Mutated(db, trusted, q).db, i, Revised(c, patch, q.now).value);
  }

  lemma ReplacedFound(db: Db, db': Db, i: nat, e: Event)
    requires WellKept(db.rows) && i < |db.rows| && WellKept(db'.rows) && e.id == db.rows[i].event.id
    requires db'.rows == db.rows[i := Row(e.id, db.rows[i].key, e, false)]
    ensures FoundAs(db, db', db.rows[i].event, e)
  {
    RowOfIdAt(db'.rows, i);
    forall key | ReadByUid(db, key) == Some(db.rows[i].event) ensures ReadByUid(db', key) == Some(e) {
      var j := RowOfKey(db.rows, key);
      assert db.rows[j].id == db.rows[i].id;
    }
  }

  /** A deleted event is found by no key; its last revision stays under its id. */
  lemma DeleteHides(db: Db, trusted: seq<string>, q: Request)
    requires WellKept(db.rows) && q.action.Delete? && Succeeds(db, trusted, q)
    ensures var out, c := Mutated(db, trusted, q), Current(db, q);
            && c.Some? && out.reply.value.event == c.value.(revision := c.value.revision + 1, updatedAt := q.now)
            && Read(out.db, c.value.id) == Some(out.reply.value.event)
            && forall key :: ReadByUid(out.db, key).None? || ReadByUid(out.db, key).value.id != c.value.id
  {
    hide WellKept, Allowed, Current, RowOfId, RowOfKey;
    var i := CurrentIsARow(db, q);
    MutationKeepsIdentity(db, trusted, q);
    HiddenRow(db, Mutated(db, trusted, q).db, i, q.now);
  }

  lemma HiddenRow(db: Db, db': Db, i: nat, now: nat)
    requires WellKept(db.rows) && i < |db.rows| && WellKept(db'.rows)
    requires var c := db.rows[i].event;
             db'.rows == db.rows[i := db.rows[i].(event := c.(revision := c.revision + 1, updatedAt := now), deleted := true)]
    ensures var c := db.rows[i].event;
            && Read(db', c.id) == Some(c.(revision := c.revision + 1, updatedAt := now))
            && forall key :: ReadByUid(db', key).None? || ReadByUid(db', key).value.id != c.id
  {
    RowOfIdAt(db'.rows, i);
    forall key | ReadByUid(db', key).Some? ensures ReadByUid(db', key).value.id != db.rows[i].event.id {
      var j := RowOfKey(db'.rows, key);
      assert RowKept(db'.rows[j]) && RowKept(db'.rows[i]) && j != i;
    }
  }

  /** A mutation is carried out exactly when policy lets it, it is new, it names what it must and at the revision it
      expects, and what it makes is valid and not in another's place. */
  lemma SucceedsIff(db: Db, trusted: seq<string>, q: Request)
    requires WellKept(db.rows) && (q.action.Create? ==> RowOfId(db.rows, q.newId) == |db.rows|)
    ensures Succeeds(db, trusted, q) <==>
            && Allowed(q.policy, trusted) && q.policy.operationId !in db.operations
            && (q.expectedRevision.Some? ==>
                  Current(db, q).Some? && Current(db, q).value.revision == q.expectedRevision.value)
            && match q.action
               case Create => Current(db, q).None? && Made(q.patch, q.newId, q.newUid, q.now).Ok? &&
                              forall i :: 0 <= i < |db.rows| ==>
                                db.rows[i].key != KeyOf(Made(q.patch, q.newId, q.newUid, q.now).value)
               case Delete => Current(db, q).Some?
               case Update => Current(db, q).Some? && Revised(Current(db, q).value, q.patch, q.now).Ok?
               case Cancel => Current(db, q).Some? &&
                              Revised(Current(db, q).value, q.patch.(status := Some(Cancelled)), q.now).Ok?
    ensures !Succeeds(db, trusted, q) ==> Mutated(db, trusted, q).db == db
  {
    hide WellKept, Made, Revised, Allowed, Current;
    if Current(db, q).Some? {
      var i := CurrentIsARow(db, q);
      forall p: Patch | Revised(Current(db, q).value, p, q.now).Ok? {
        RevisedTakes(Current(db, q).value, p, q.now);
      }
    }
    if Made(q.patch, q.newId, q.newUid, q.now).Ok? {
      MadeTakes(q.patch, q.newId, q.newUid, q.now);
    }
  }

  /** An invitation's cancellation that is carried out leaves the event cancelled, with nothing else of it changed but
      where it came from. */
  lemma CancellationCancels(db: Db, trusted: seq<string>, cal: string, d: Delivery)
    requires WellKept(db.rows) && d.proposal.cancels
    requires var reply := Applied(db, trusted, cal, d.proposal, d.newId, d.newUid, d.now).reply; reply.Ok? && !reply.value.replay
    ensures var out := Applied(db, trusted, cal, d.proposal, d.newId, d.newUid, d.now);
            var key := Key(cal, d.proposal.uid, d.proposal.recurrenceId);
            var c, e := ReadByUid(db, key), out.reply.value.event;
            && c.Some? && Revises(e, c.value, d.now) && e.status == Cancelled
            && TakesFields(e, NO_PATCH.(provenance := d.proposal.patch.provenance), c.value)
            && ReadByUid(out.db, key) == Some(e)
  {
    hide WellKept, Mutated, TakesFields, Allowed, Current, Revises;
    var key := Key(cal, d.proposal.uid, d.proposal.recurrenceId);
    var c := ReadByUid(db, key);
    var q := Asked(cal, d.proposal, c, d.newId, d.newUid, d.now);
    CancelCancels(db, trusted, q);
    FoundById(db, key, q);
  }

  lemma FoundById(db: Db, key: Key, q: Request)
    requires WellKept(db.rows) && ReadByUid(db, key).Some? && q.id == Some(ReadByUid(db, key).value.id)
    ensures Current(db, q) == ReadByUid(db, key)
  {
    var i := RowOfKey(db.rows, key);
    RowOfIdAt(db.rows, i);
    assert RowKept(db.rows[i]);
  }

  /** The event ends after it starts, by times of one kind and zone, and it has a title. */
  predicate WellTimed(e: Event)
  {
    && (match e.start
        case OnDate(day) => e.end.OnDate? && day < e.end.day
        case Utc(second) => e.end.Utc? && second < e.end.second
        case Zoned(local, zone) => e.end.Zoned? && e.end.zone == zone && '/' in zone && local < e.end.local)
    && exists c :: c in e.title && c != ' ' && c != '\t' && c != '\n' && c != '\r'
  }

  ghost predicate AllWellTimed(db: Db)
  {
    forall i :: 0 <= i < |db.rows| ==> WellTimed(db.rows[i].event)
  }

  lemma StepStaysWellTimed(db: Db, trusted: seq<string>, step: Step)
    requires AllWellTimed(db)
    ensures AllWellTimed(Taken(db, trusted, step).db)
  {
    match step
    case Mutation(q) => MutationStaysWellTimed(db, trusted, q);
    case Invitation(cal, d) =>
      hide Mutated, AllWellTimed;
      var current := ReadByUid(db, Key(cal, d.proposal.uid, d.proposal.recurrenceId));
      if !d.proposal.cancels || current.Some? {
        MutationStaysWellTimed(db, trusted, Asked(cal, d.proposal, current, d.newId, d.newUid, d.now));
      }
  }

  lemma MutationStaysWellTimed(db: Db, trusted: seq<string>, q: Request)
    requires AllWellTimed(db)
    ensures AllWellTimed(Mutated(db, trusted, q).db)
  {
    hide Made, Revised, Allowed, WellTimed, Read, ReadByUid;
    forall p: Patch | Made(p, q.newId, q.newUid, q.now).Ok? ensures WellTimed(Made(p, q.newId, q.newUid, q.now).value) {
      MadeWellTimed(p, q.newId, q.newUid, q.now);
    }
    forall c: Event, p: Patch | Revised(c, p, q.now).Ok? ensures WellTimed(Revised(c, p, q.now).value) {
      RevisedWellTimed(c, p, q.now);
    }
    forall c: Event | WellTimed(c) ensures WellTimed(c.(revision := c.revision + 1, updatedAt := q.now)) {
      SameTimes(c, q.now);
    }
    if Current(db, q).Some? {
      FoundWellTimed(db, q);
    }
  }

  lemma FoundWellTimed(db: Db, q: Request)
    requires AllWellTimed(db) && Current(db, q).Some?
    ensures WellTimed(Current(db, q).value)
  {
  }

  lemma SameTimes(c: Event, now: nat)
    requires WellTimed(c)
    ensures WellTimed(c.(revision := c.revision + 1, updatedAt := now))
  {
  }

  lemma MadeWellTimed(p: Patch, id: string, uid: string, now: nat)
    requires Made(p, id, uid, now).Ok?
    ensures WellTimed(Made(p, id, uid, now).value)
  {
    hide LowerAll;
  }

  lemma RevisedWellTimed(c: Event, p: Patch, now: nat)
    requires Revised(c, p, now).Ok?
    ensures WellTimed(Revised(c, p, now).value)
  {
    hide LowerAll;
  }

  /** Over every run, no event of the table ends before it starts or mixes kinds of time. */
  lemma {:induction false} RunsStayWellTimed(db: Db, trusted: seq<string>, steps: seq<Step>)
    requires AllWellTimed(db)
    ensures AllWellTimed(Ran(db, trusted, steps))
    decreases |steps|
  {
    if steps != [] {
      hide AllWellTimed, Taken;
      RunsStayWellTimed(db, trusted, steps[..|steps| - 1]);
      StepStaysWellTimed(Ran(db, trusted, steps[..|steps| - 1]), trusted, steps[|steps| - 1]);
    }
  }
}

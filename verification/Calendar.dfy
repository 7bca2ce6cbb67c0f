/** Calendar events, their table, and the mutations that policy, revision checks and replay detection let through. */
module Calendar {
  import opened Basics

  // Events.

  /** When an event starts or ends. Times of one kind compare as their texts do. */
  datatype Boundary = OnDate(day: nat) | Utc(second: nat) | Zoned(local: nat, zone: string)

  function ValueOf(b: Boundary): nat
  {
    match b
    case OnDate(day) => day
    case Utc(second) => second
    case Zoned(local, _) => local
  }

  predicate ValidBoundary(b: Boundary)
  {
    b.Zoned? ==> '/' in b.zone
  }

  datatype Status = Confirmed | Tentative | Cancelled

  datatype Provenance = ByAgent | Inbound(organizer: string, messageId: string, recipient: string, sourceRevision: nat)

  datatype Event = Event(id: string, calendarId: string, uid: string, revision: nat, status: Status, title: string,
                         description: Option<string>, location: Option<string>, start: Boundary, end: Boundary,
                         category: Option<string>, color: Option<string>, recurrence: seq<string>,
                         recurrenceId: Option<Boundary>, attendees: seq<string>, provenance: Provenance,
                         createdAt: nat, updatedAt: nat)

  /** The fields a request gives; a field it leaves out keeps its value or takes its default. */
  datatype Patch = Patch(calendarId: Option<string>, uid: Option<string>, status: Option<Status>, title: Option<string>,
                         description: Option<Option<string>>, location: Option<Option<string>>,
                         start: Option<Boundary>, end: Option<Boundary>, category: Option<Option<string>>,
                         color: Option<Option<string>>, recurrence: Option<seq<string>>,
                         recurrenceId: Option<Option<Boundary>>, attendees: Option<seq<string>>,
                         provenance: Option<Provenance>)

  function Or<T>(given: Option<T>, otherwise: T): T
  {
    if given.Some? then given.value else otherwise
  }

  predicate Blank(s: string)
  {
    forall c :: c in s ==> c == ' ' || c == '\t' || c == '\n' || c == '\r'
  }

  function Lower(s: string): (t: string)
    ensures |t| == |s|
  {
    if s == [] then []
    else [if 'A' <= s[0] <= 'Z' then s[0] + 32 as char else s[0]] + Lower(s[1..])
  }

  function LowerAll(emails: seq<string>): (r: seq<string>)
    ensures |r| == |emails|
  {
    if emails == [] then [] else [Lower(emails[0])] + LowerAll(emails[1..])
  }

  predicate Consistent(e: Event)
  {
    && ValidBoundary(e.start) && ValidBoundary(e.end)
    && (e.start.OnDate? <==> e.end.OnDate?) && (e.start.Utc? <==> e.end.Utc?)
    && (e.start.Zoned? ==> e.start.zone == e.end.zone)
    && ValueOf(e.start) < ValueOf(e.end)
    && !Blank(e.id) && !Blank(e.calendarId) && !Blank(e.uid) && !Blank(e.title)
    && (e.recurrenceId.Some? ==> ValidBoundary(e.recurrenceId.value))
    && forall email :: email in e.attendees ==> !Blank(email)
  }

  datatype Failure =
    | NotAuthorized
    | RevisionConflict
    | AlreadyExists
    | NotFound
    | Immutable
    | InvalidEvent
    | Stale
    | NotImported
    | UniqueConstraint

  function Normalized(e: Event): Result<Event, Failure>
  {
    if Consistent(e) && e.revision >= 1 then Ok(e.(attendees := LowerAll(e.attendees))) else Err(InvalidEvent)
  }

  /** A new event; a field left out takes its default, and one without a default must be given. */
  function Made(p: Patch, id: string, uid: string, now: nat): Result<Event, Failure>
  {
    if p.start.None? || p.end.None? || p.title.None? || p.calendarId.None? then Err(InvalidEvent)
    else
      Normalized(Event(id, p.calendarId.value, Or(p.uid, uid), 1, Or(p.status, Confirmed), p.title.value,
                       Or(p.description, None), Or(p.location, None), p.start.value, p.end.value,
                       Or(p.category, None), Or(p.color, None), Or(p.recurrence, []), Or(p.recurrenceId, None),
                       Or(p.attendees, []), Or(p.provenance, ByAgent), now, now))
  }

  function Revised(e: Event, p: Patch, now: nat): Result<Event, Failure>
  {
    if p.uid.Some? && p.uid.value != [] && p.uid.value != e.uid then Err(Immutable)
    else if p.calendarId.Some? && p.calendarId.value != [] && p.calendarId.value != e.calendarId then Err(Immutable)
    else
      Normalized(Event(e.id, Or(p.calendarId, e.calendarId), e.uid, e.revision + 1, Or(p.status, e.status), Or(p.title, e.title),
                       Or(p.description, e.description), Or(p.location, e.location), Or(p.start, e.start), Or(p.end, e.end),
                       Or(p.category, e.category), Or(p.color, e.color), Or(p.recurrence, e.recurrence),
                       Or(p.recurrenceId, e.recurrenceId), Or(p.attendees, e.attendees), Or(p.provenance, e.provenance),
                       e.createdAt, now))
  }

  // Policy.

  datatype Origin = Agent(actor: string, approved: bool) | InboundInvitation(recipient: string) | Elsewhere

  datatype Policy = Policy(origin: Origin, operationId: string, reason: string)

  predicate Allowed(p: Policy, trusted: seq<string>)
  {
    && p.operationId != [] && p.reason != []
    && match p.origin
       case Agent(actor, approved) => approved && "agent:" <= actor
       case InboundInvitation(recipient) => recipient != [] && Lower(recipient) in LowerAll(trusted)
       case Elsewhere => false
  }

  // The table.

  datatype Key = Key(calendarId: string, uid: string, recurrence: Option<Boundary>)

  /** A row keeps the key it was inserted under; no two rows share an id or a key, deleted or not. */
  datatype Row = Row(id: string, key: Key, event: Event, deleted: bool)

  datatype Db = Db(rows: seq<Row>, operations: map<string, Event>)

  function RowOfId(rows: seq<Row>, id: string): (i: nat)
    ensures i <= |rows| && (i < |rows| ==> rows[i].id == id)
    ensures forall j :: 0 <= j < i ==> rows[j].id != id
  {
    if rows == [] || rows[0].id == id then 0 else 1 + RowOfId(rows[1..], id)
  }

  function RowOfKey(rows: seq<Row>, key: Key): (i: nat)
    ensures i <= |rows| && (i < |rows| ==> rows[i].key == key)
    ensures forall j :: 0 <= j < i ==> rows[j].key != key
  {
    if rows == [] || rows[0].key == key then 0 else 1 + RowOfKey(rows[1..], key)
  }

  function KeyOf(e: Event): Key
  {
    Key(e.calendarId, e.uid, e.recurrenceId)
  }

  function Read(db: Db, id: string): Option<Event>
  {
    var i := RowOfId(db.rows, id);
    if i < |db.rows| then Some(db.rows[i].event) else None
  }

  function ReadByUid(db: Db, key: Key): Option<Event>
  {
    var i := RowOfKey(db.rows, key);
    if i < |db.rows| && !db.rows[i].deleted then Some(db.rows[i].event) else None
  }

  /** Insert an event or, under an id that is there, replace it. */
  function Committed(db: Db, e: Event, operationId: string): Result<Db, Failure>
  {
    var i := RowOfId(db.rows, e.id);
    if i < |db.rows| then
      Ok(Db(db.rows[i := Row(e.id, db.rows[i].key, e, false)], db.operations[operationId := e]))
    else if RowOfKey(db.rows, KeyOf(e)) < |db.rows| then Err(UniqueConstraint)
    else Ok(Db(db.rows + [Row(e.id, KeyOf(e), e, false)], db.operations[operationId := e]))
  }

  function Tombstoned(db: Db, e: Event, operationId: string, now: nat): Db
  {
    var i := RowOfId(db.rows, e.id);
    var gone := e.(revision := e.revision + 1, updatedAt := now);
    Db(if i < |db.rows| then db.rows[i := db.rows[i].(event := gone, deleted := true)] else db.rows,
       db.operations[operationId := gone])
  }

  // Mutations.

  datatype Action = Create | Update | Cancel | Delete

  /** `newId` and `newUid` are the identifiers drawn for a new event. */
  datatype Request = Request(action: Action, id: Option<string>, key: Option<Key>, expectedRevision: Option<nat>,
                             patch: Patch, policy: Policy, newId: string, newUid: string, now: nat)

  datatype Reply = Reply(event: Event, replay: bool)

  datatype Outcome = Outcome(db: Db, reply: Result<Reply, Failure>)

  function Current(db: Db, q: Request): Option<Event>
  {
    var found := if q.id.Some? then Read(db, q.id.value) else None;
    if found.None? && q.key.Some? then ReadByUid(db, q.key.value) else found
  }

  function Mutated(db: Db, trusted: seq<string>, q: Request): Outcome
  {
    if !Allowed(q.policy, trusted) then Outcome(db, Err(NotAuthorized))
    else if q.policy.operationId in db.operations then Outcome(db, Ok(Reply(db.operations[q.policy.operationId], true)))
    else
      var current := Current(db, q);
      if q.expectedRevision.Some? && (current.None? || current.value.revision != q.expectedRevision.value) then
        Outcome(db, Err(RevisionConflict))
      else if q.action.Create? && current.Some? then Outcome(db, Err(AlreadyExists))
      else if !q.action.Create? && current.None? then Outcome(db, Err(NotFound))
      else if q.action.Delete? then
        var db' := Tombstoned(db, current.value, q.policy.operationId, q.now);
        Outcome(db', Ok(Reply(db'.operations[q.policy.operationId], false)))
      else
        var patch := if q.action.Cancel? then q.patch.(status := Some(Cancelled)) else q.patch;
        var made := if q.action.Create? then Made(patch, q.newId, q.newUid, q.now) else Revised(current.value, patch, q.now);
        match made
        case Err(f) => Outcome(db, Err(f))
        case Ok(e) =>
          match Committed(db, e, q.policy.operationId)
          case Err(f) => Outcome(db, Err(f))
          case Ok(db') => Outcome(db', Ok(Reply(e, false)))
  }

  // Invitations.

  /** An invitation read from a message. Its event gives every field a message carries, and its sequence as source
      revision. */
  datatype Proposal = Proposal(cancels: bool, sourceRevision: nat, uid: string, recurrenceId: Option<Boundary>,
                               patch: Patch, policy: Policy)

  function Prior(current: Option<Event>): int
  {
    if current.Some? && current.value.provenance.Inbound? then current.value.provenance.sourceRevision else -1
  }

  const NO_PATCH := Patch(None, None, None, None, None, None, None, None, None, None, None, None, None, None)

  /** The mutation an invitation asks for. */
  function Asked(calendarId: string, p: Proposal, current: Option<Event>, newId: string, newUid: string, now: nat): Request
    requires p.cancels ==> current.Some?
  {
    var patch := p.patch.(calendarId := Some(calendarId));
    match current
    case None => Request(Create, None, None, None, patch, p.policy, newId, newUid, now)
    case Some(e) =>
      Request(if p.cancels then Cancel else Update, Some(e.id), None, Some(e.revision),
              if p.cancels then NO_PATCH.(provenance := p.patch.provenance) else patch, p.policy, newId, newUid, now)
  }

  function Applied(db: Db, trusted: seq<string>, calendarId: string, p: Proposal, newId: string, newUid: string, now: nat): Outcome
  {
    if !Allowed(p.policy, trusted) then Outcome(db, Err(NotAuthorized))
    else
      var current := ReadByUid(db, Key(calendarId, p.uid, p.recurrenceId));
      if p.sourceRevision < Prior(current) then Outcome(db, Err(Stale))
      else if current.Some? && p.sourceRevision == Prior(current) then Outcome(db, Ok(Reply(current.value, true)))
      else if p.cancels && current.None? then Outcome(db, Err(NotImported))
      else Mutated(db, trusted, Asked(calendarId, p, current, newId, newUid, now))
  }

  // The store and the service over it.

  class CalendarStore {
    var rows: seq<Row>
    var operations: map<string, Event>

    constructor ()
      ensures View() == Db([], map[])
    {
      rows, operations := [], map[];
    }

    function View(): Db
      reads this
    {
      Db(rows, operations)
    }

    method Commit(e: Event, operationId: string) returns (failure: Option<Failure>)
      modifies this
      ensures match Committed(old(View()), e, operationId)
              case Ok(db) => failure == None && View() == db
              case Err(f) => failure == Some(f) && View() == old(View())
    {
      var i := RowOfId(rows, e.id);
      if i < |rows| {
        rows := rows[i := Row(e.id, rows[i].key, e, false)];
      } else if RowOfKey(rows, KeyOf(e)) < |rows| {
        return Some(UniqueConstraint);
      } else {
        rows := rows + [Row(e.id, KeyOf(e), e, false)];
      }
      operations := operations[operationId := e];
      failure := None;
    }

    method Tombstone(e: Event, operationId: string, now: nat) returns (gone: Event)
      modifies this
      ensures View() == Tombstoned(old(View()), e, operationId, now)
      ensures gone == operations[operationId]
    {
      gone := e.(revision := e.revision + 1, updatedAt := now);
      var i := RowOfId(rows, e.id);
      if i < |rows| {
        rows := rows[i := rows[i].(event := gone, deleted := true)];
      }
      operations := operations[operationId := gone];
    }
  }

  class CalendarService {
    const store: CalendarStore
    const trusted: seq<string>

    constructor (store: CalendarStore, trusted: seq<string>)
      ensures this.store == store && this.trusted == trusted
    {
      this.store, this.trusted := store, trusted;
    }

    method Mutate(q: Request) returns (reply: Result<Reply, Failure>)
      modifies store
      ensures Outcome(store.View(), reply) == Mutated(old(store.View()), trusted, q)
    {
      if !Allowed(q.policy, trusted) {
        return Err(NotAuthorized);
      }
      if q.policy.operationId in store.operations {
        return Ok(Reply(store.operations[q.policy.operationId], true));
      }
      var current := if q.id.Some? then Read(store.View(), q.id.value) else None;
      if current.None? && q.key.Some? {
        current := ReadByUid(store.View(), q.key.value);
      }
      if q.expectedRevision.Some? && (current.None? || current.value.revision != q.expectedRevision.value) {
        return Err(RevisionConflict);
      }
      var made;
      if q.action.Create? {
        if current.Some? {
          return Err(AlreadyExists);
        }
        made := Made(q.patch, q.newId, q.newUid, q.now);
      } else {
        if current.None? {
          return Err(NotFound);
        }
        if q.action.Delete? {
          var gone := store.Tombstone(current.value, q.policy.operationId, q.now);
          return Ok(Reply(gone, false));
        }
        var patch := if q.action.Cancel? then q.patch.(status := Some(Cancelled)) else q.patch;
        made := Revised(current.value, patch, q.now);
      }
      if made.Err? {
        return Err(made.error);
      }
      var failure := store.Commit(made.value, q.policy.operationId);
      if failure.Some? {
        return Err(failure.value);
      }
      reply := Ok(Reply(made.value, false));
    }

    method ApplyInvitation(calendarId: string, p: Proposal, newId: string, newUid: string, now: nat)
      returns (reply: Result<Reply, Failure>)
      modifies store
      ensures Outcome(store.View(), reply) == Applied(old(store.View()), trusted, calendarId, p, newId, newUid, now)
    {
      if !Allowed(p.policy, trusted) {
        return Err(NotAuthorized);
      }
      var current := ReadByUid(store.View(), Key(calendarId, p.uid, p.recurrenceId));
      var prior := if current.Some? && current.value.provenance.Inbound? then current.value.provenance.sourceRevision else -1;
      if p.sourceRevision < prior {
        return Err(Stale);
      }
      if current.Some? && p.sourceRevision == prior {
        return Ok(Reply(current.value, true));
      }
      if p.cancels {
        if current.None? {
          return Err(NotImported);
        }
        var e := current.value;
        reply := Mutate(Request(Cancel, Some(e.id), None, Some(e.revision), NO_PATCH.(provenance := p.patch.provenance),
                                p.policy, newId, newUid, now));
        return;
      }
      var patch := p.patch.(calendarId := Some(calendarId));
      if current.Some? {
        var e := current.value;
        reply := Mutate(Request(Update, Some(e.id), None, Some(e.revision), patch, p.policy, newId, newUid, now));
      } else {
        reply := Mutate(Request(Create, None, None, None, patch, p.policy, newId, newUid, now));
      }
    }
  }
}

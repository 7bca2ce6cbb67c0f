/** Routing alerts to incident threads. */
module HeartbeatIncidents {
  import opened Basics
  import opened Heartbeat
  import opened HeartbeatRuns

  const INCIDENT_TTL := 12 * HOUR

  /** What an alert is about: a check, or replies found lost in the log. */
  datatype Topic = OfCheck(key: Check) | SilentKill

  /** The outcome of one message: accepted with its timestamp, refused, or an error on the way. */
  datatype Post = Posted(ts: nat) | Refused | Broken

  datatype Delivery = Delivery(token: bool, at: nat, opening: Post, reply: Post)

  datatype Incident = Incident(ts: nat, openedAt: nat)

  predicate Open(incidents: map<Topic, Incident>, topic: Topic, at: nat)
  {
    topic in incidents && at < incidents[topic].openedAt + INCIDENT_TTL
  }

  datatype Routing = Routing(incidents: map<Topic, Incident>, delivered: bool)

  function Routed(incidents: map<Topic, Incident>, topic: Topic, severity: Severity, resolves: bool, d: Delivery): Routing
  {
    if (resolves && topic !in incidents) || !d.token then Routing(incidents, false)
    else if Open(incidents, topic, d.at) then
      if d.reply.Broken? then Routing(incidents, false)
      else Routing(if resolves then incidents - {topic} else incidents, d.reply.Posted?)
    else
      match d.opening
      case Broken => Routing(incidents - {topic}, false)
      case Refused => Routing(incidents - {topic}, false)
      case Posted(ts) =>
        var begun := incidents[topic := Incident(ts, d.at)];
        if severity == Page && d.reply.Broken? then Routing(begun, false)
        else Routing(if resolves then begun - {topic} else begun, severity != Page || d.reply.Posted?)
  }

  class Incidents {
    var threads: map<Topic, Incident>

    constructor ()
      ensures threads == map[]
    {
      threads := map[];
    }

    /** The thread of an incident: the one that is open, or a new one; none when the opening is refused. */
    method Thread(topic: Topic, d: Delivery) returns (ts: Option<nat>, begun: bool, broken: bool)
      modifies this
      ensures Open(old(threads), topic, d.at) ==>
                threads == old(threads) && ts == Some(threads[topic].ts) && !begun && !broken
      ensures !Open(old(threads), topic, d.at) ==>
                && begun && (broken <==> d.opening.Broken?)
                && match d.opening
                   case Posted(t) => ts == Some(t) && threads == old(threads)[topic := Incident(t, d.at)]
                   case _ => ts == None && threads == old(threads) - {topic}
    {
      ts, begun, broken := None, true, false;
      if topic in threads {
        if d.at < threads[topic].openedAt + INCIDENT_TTL {
          return Some(threads[topic].ts), false, false;
        }
        threads := threads - {topic};
      }
      match d.opening {
        case Posted(t) =>
          ts := Some(t);
          threads := threads[topic := Incident(t, d.at)];
        case Refused =>
        case Broken => broken := true;
      }
    }

    method Route(topic: Topic, severity: Severity, resolves: bool, d: Delivery) returns (delivered: bool)
      modifies this
      ensures Routing(threads, delivered) == Routed(old(threads), topic, severity, resolves, d)
    {
      delivered := false;
      if resolves && topic !in threads {
        return;
      }
      if d.token {
        var ts, begun, broken := Thread(topic, d);
        if !broken {
          if ts.Some? && !(begun && severity != Page) {
            if d.reply.Broken? {
              return;
            }
            delivered := d.reply.Posted?;
          } else {
            delivered := ts.Some?;
          }
          if resolves {
            threads := threads - {topic};
          }
        }
      }
    }
  }

  // Whole runs.

  /** In a run, a check is observed or lost replies are reported; an alert raised meets its delivery. */
  datatype Event = Seen(o: Observation, d: Delivery) | Lost(d: Delivery)

  function StateAfter(es: seq<Event>): State
  {
    if es == [] then START
    else
      var before := StateAfter(es[..|es| - 1]);
      match es[|es| - 1]
      case Seen(o, _) => Observed(before, o).state
      case Lost(_) => before
  }

  function IncidentsAfter(es: seq<Event>): map<Topic, Incident>
  {
    if es == [] then map[]
    else
      var before := IncidentsAfter(es[..|es| - 1]);
      match es[|es| - 1]
      case Lost(d) => Routed(before, SilentKill, Notice, false, d).incidents
      case Seen(o, d) =>
        var alerts := Observed(StateAfter(es[..|es| - 1]), o).alerts;
        if alerts == [] then before
        else Routed(before, OfCheck(alerts[0].key), alerts[0].severity, alerts[0].Resolves(), d).incidents
  }

  /** Delivering an alert leaves an incident open exactly if the alert does not resolve: a resolving one needs an
      open thread to accept or refuse its message, another needs an open thread or a new one. */
  predicate Effective(incidents: map<Topic, Incident>, topic: Topic, resolves: bool, d: Delivery)
  {
    if resolves then topic !in incidents || (d.token && (Open(incidents, topic, d.at) ==> !d.reply.Broken?))
    else if d.token then Open(incidents, topic, d.at) || d.opening.Posted?
    else topic in incidents
  }

  lemma RoutedIffEffective(incidents: map<Topic, Incident>, topic: Topic, severity: Severity, resolves: bool, d: Delivery)
    requires resolves ==> severity == Notice
    ensures Effective(incidents, topic, resolves, d) <==>
            (topic in Routed(incidents, topic, severity, resolves, d).incidents <==> !resolves)
  {
  }

  /** An alert counts as delivered when the open thread accepts it, or when a new thread does; a page is repeated in
      the new thread, and that must be accepted too. A recovery without an incident is not sent. */
  lemma DeliveredIff(incidents: map<Topic, Incident>, topic: Topic, severity: Severity, resolves: bool, d: Delivery)
    ensures Routed(incidents, topic, severity, resolves, d).delivered <==>
            && d.token && (resolves ==> topic in incidents)
            && if topic in incidents && d.at < incidents[topic].openedAt + 12 * 3600 then d.reply.Posted?
               else d.opening.Posted? && (severity == Page ==> d.reply.Posted?)
  {
  }

  lemma RoutedElsewhere(incidents: map<Topic, Incident>, topic: Topic, severity: Severity, resolves: bool, d: Delivery, other: Topic)
    requires other != topic
    ensures other in Routed(incidents, topic, severity, resolves, d).incidents <==> other in incidents
  {
  }

  /** The alert an event raises for a check, if any. */
  function Raised(es: seq<Event>, key: Check): Option<Alert>
    requires es != []
  {
    match es[|es| - 1]
    case Lost(_) => None
    case Seen(o, _) =>
      var alerts := Observed(StateAfter(es[..|es| - 1]), o).alerts;
      if alerts != [] && alerts[0].key == key then Some(alerts[0]) else None
  }

  /** The last alert raised for a check, if there was one, was delivered to effect. */
  predicate LastEffective(es: seq<Event>, key: Check)
  {
    if es == [] then true
    else
      match Raised(es, key)
      case None => LastEffective(es[..|es| - 1], key)
      case Some(alert) => Effective(IncidentsAfter(es[..|es| - 1]), OfCheck(key), alert.Resolves(), es[|es| - 1].d)
  }

  /** What an event does to a check that it raises no alert for: nothing. */
  lemma UnraisedKeeps(es: seq<Event>, key: Check)
    requires es != [] && Raised(es, key).None?
    ensures OfCheck(key) in IncidentsAfter(es) <==> OfCheck(key) in IncidentsAfter(es[..|es| - 1])
    ensures Of(StateAfter(es), key).alerting == Of(StateAfter(es[..|es| - 1]), key).alerting
  {
    hide Observed, Routed;
    var init := es[..|es| - 1];
    match es[|es| - 1] {
      case Lost(d) => RoutedElsewhere(IncidentsAfter(init), SilentKill, Notice, false, d, OfCheck(key));
      case Seen(o, d) =>
        var alerts := Observed(StateAfter(init), o).alerts;
        AlertsOfStep(StateAfter(init), o);
        AlertingStep(StateAfter(init), o);
        if alerts != [] {
          assert alerts[0] in alerts;
          RoutedElsewhere(IncidentsAfter(init), OfCheck(o.key), alerts[0].severity, alerts[0].Resolves(), d, OfCheck(key));
        }
        if o.key != key {
          OtherChecks(StateAfter(init), o, key);
        }
    }
  }

  lemma RaisedSets(es: seq<Event>, key: Check)
    requires es != [] && Raised(es, key).Some?
    ensures Of(StateAfter(es), key).alerting == !Raised(es, key).value.Resolves()
    ensures (OfCheck(key) in IncidentsAfter(es) <==> !Raised(es, key).value.Resolves()) <==> LastEffective(es, key)
  {
    hide Observed, Routed, Effective;
    var init, last := es[..|es| - 1], es[|es| - 1];
    var alert := Raised(es, key).value;
    AlertsOfStep(StateAfter(init), last.o);
    AlertingStep(StateAfter(init), last.o);
    assert alert in Observed(StateAfter(init), last.o).alerts;
    RoutedIffEffective(IncidentsAfter(init), OfCheck(key), alert.severity, alert.Resolves(), last.d);
  }

  /** A check has an open incident exactly while it is alerting, if and only if its last alert was delivered to
      effect. */
  lemma {:induction false} IncidentsAgreeIff(es: seq<Event>, key: Check)
    ensures (OfCheck(key) in IncidentsAfter(es) <==> Of(StateAfter(es), key).alerting) <==> LastEffective(es, key)
    decreases |es|
  {
    if es != [] {
      if Raised(es, key).Some? {
        RaisedSets(es, key);
      } else {
        UnraisedKeeps(es, key);
        IncidentsAgreeIff(es[..|es| - 1], key);
      }
    }
  }

  /** So they agree throughout while tokens are there, openings are accepted and no message breaks on the way; an
      update may be refused. */
  lemma {:induction false} IncidentsAgree(es: seq<Event>, key: Check)
    requires forall e :: e in es ==> e.d.token && e.d.opening.Posted? && !e.d.reply.Broken?
    ensures OfCheck(key) in IncidentsAfter(es) <==> Of(StateAfter(es), key).alerting
  {
    AllEffective(es, key);
    IncidentsAgreeIff(es, key);
  }

  lemma {:induction false} AllEffective(es: seq<Event>, key: Check)
    requires forall e :: e in es ==> e.d.token && e.d.opening.Posted? && !e.d.reply.Broken?
    ensures LastEffective(es, key)
    decreases |es|
  {
    if es != [] {
      assert es[|es| - 1] in es;
      AllEffective(es[..|es| - 1], key);
    }
  }

  function Updated(incidents: map<Topic, Incident>, topic: Topic, severity: Severity, ds: seq<Delivery>): map<Topic, Incident>
  {
    if ds == [] then incidents
    else Routed(Updated(incidents, topic, severity, ds[..|ds| - 1]), topic, severity, false, ds[|ds| - 1]).incidents
  }

  /** Updates within twelve hours of the opening leave the incident as it was; the first alert after that opens a new
      thread, however recent the last update. */
  lemma {:induction false} ThreadEndsByAge(incidents: map<Topic, Incident>, topic: Topic, severity: Severity, ds: seq<Delivery>, d: Delivery)
    requires topic in incidents && forall e :: e in ds ==> e.at < incidents[topic].openedAt + INCIDENT_TTL
    requires incidents[topic].openedAt + INCIDENT_TTL <= d.at && d.token && d.opening.Posted?
    ensures Updated(incidents, topic, severity, ds) == incidents
    ensures Updated(incidents, topic, severity, ds + [d]) == incidents[topic := Incident(d.opening.ts, d.at)]
    decreases |ds|
  {
    if ds != [] {
      assert ds[|ds| - 1] in ds;
      ThreadEndsByAge(incidents, topic, severity, ds[..|ds| - 1], d);
    }
    assert (ds + [d])[..|ds|] == ds;
  }

  /** A refused opening leaves a check alerting without an incident. */
  lemma RefusedOpeningDisagrees()
    ensures var o := Observation(ProviderUp, true, 0, 0, 0, 0, 0, false);
            var es := [Seen(o, Delivery(true, 0, Refused, Refused)), Seen(o, Delivery(true, 0, Refused, Refused))];
            Of(StateAfter(es), ProviderUp).alerting && OfCheck(ProviderUp) !in IncidentsAfter(es)
  {
    var o := Observation(ProviderUp, true, 0, 0, 0, 0, 0, false);
    var e := Seen(o, Delivery(true, 0, Refused, Refused));
    assert [e, e][..1] == [e] && [e][..0] == [];
    var first := Observed(START, o).state;
    assert StateAfter([e]) == first && IncidentsAfter([e]) == map[];
    assert Of(first, ProviderUp).fails == 1;
    assert StateAfter([e, e]) == Observed(first, o).state;
  }
}

/** What holds over every run of the monitor. */
module HeartbeatRuns {
  import opened Basics
  import opened Heartbeat

  function StateAt(os: seq<Observation>, n: nat): State
    requires n <= |os|
  {
    if n == 0 then START else Observed(StateAt(os, n - 1), os[n - 1]).state
  }

  function StepAt(os: seq<Observation>, i: nat): Outcome
    requires i < |os|
  {
    Observed(StateAt(os, i), os[i])
  }

  /** The clock does not run backwards, within an observation or from one to the next. */
  ghost predicate Chronological(os: seq<Observation>)
  {
    && (forall i :: 0 <= i < |os| ==> os[i].at <= os[i].budgetAt <= os[i].restartAt <= os[i].endAt)
    && forall i, j :: 0 <= i < j < |os| ==> os[i].endAt <= os[j].at
  }

  // What one step does.

  /** An observation changes its own check only. */
  lemma OtherChecks(s: State, o: Observation, key: Check)
    requires key != o.key
    ensures Of(Observed(s, o).state, key) == Of(s, key)
  {
  }

  /** A restart is attempted within the budget, for a fixable check that failed before, when no run is active. */
  lemma RestartStep(s: State, o: Observation)
    ensures var out, recent := Observed(s, o), Recent(s.restarts, o.budgetAt);
            && (out.restarted ==> out.state.restarts == recent + [o.restartAt] && |recent| < RESTART_BUDGET)
            && (!out.restarted ==> out.state.restarts == s.restarts || out.state.restarts == recent)
            && (out.restarted ==> RestartFixable(o.key) && o.failed && o.runs == 0 && Of(s, o.key).fails > 0)
  {
  }

  lemma ClockRuns(os: seq<Observation>, n: nat)
    requires Chronological(os) && 0 < n <= |os|
    ensures Clock(os, n - 1) <= os[n - 1].at <= os[n - 1].budgetAt <= os[n - 1].restartAt <= Clock(os, n)
  {
  }

  // The restart budget.

  /** When the first `n` observations restarted the gateway, whatever the check. */
  function Restarts(os: seq<Observation>, n: nat): seq<nat>
    requires n <= |os|
  {
    if n == 0 then [] else Restarts(os, n - 1) + if StepAt(os, n - 1).restarted then [os[n - 1].restartAt] else []
  }

  function Clock(os: seq<Observation>, n: nat): nat
    requires n <= |os|
  {
    if n == 0 then 0 else os[n - 1].endAt
  }

  lemma {:induction false} RecentTwice(ts: seq<nat>, earlier: nat, now: nat)
    requires earlier <= now
    ensures Recent(Recent(ts, earlier), now) == Recent(ts, now)
    decreases |ts|
  {
    if ts != [] {
      var init, last := ts[..|ts| - 1], ts[|ts| - 1];
      RecentTwice(init, earlier, now);
      var kept := Recent(init, earlier);
      if last + HOUR > earlier {
        assert (kept + [last])[..|kept|] == kept;
      } else {
        assert Recent(ts, earlier) == kept;
      }
    }
  }

  lemma RecentAppend(ts: seq<nat>, t: nat, now: nat)
    ensures Recent(ts + [t], now) == Recent(ts, now) + if t + HOUR > now then [t] else []
  {
    assert (ts + [t])[..|ts|] == ts;
  }

  ghost predicate Ascending(ts: seq<nat>)
  {
    forall i, j :: 0 <= i < j < |ts| ==> ts[i] <= ts[j]
  }

  /** The second last of an ascending list is old when fewer than two entries are recent. */
  lemma FewRecent(ts: seq<nat>, now: nat)
    requires Ascending(ts) && |Recent(ts, now)| < 2 && |ts| >= 2
    ensures ts[|ts| - 2] + HOUR <= now
  {
    var init := ts[..|ts| - 1];
    assert init[|init| - 1] == ts[|ts| - 2];
    if ts[|ts| - 2] + HOUR > now {
      assert |Recent(init, now)| >= 1;
    }
  }

  /** The persisted list is the history without entries that have expired. */
  lemma {:induction false} RestartsPersisted(os: seq<Observation>, n: nat, now: nat)
    requires Chronological(os) && n <= |os| && Clock(os, n) <= now
    ensures Recent(StateAt(os, n).restarts, now) == Recent(Restarts(os, n), now)
    decreases n
  {
    if n > 0 {
      hide Observed, Chronological, Clock, Recent;
      var o, before := os[n - 1], StateAt(os, n - 1).restarts;
      ClockRuns(os, n);
      RestartStep(StateAt(os, n - 1), o);
      RestartsPersisted(os, n - 1, now);
      RecentTwice(before, o.budgetAt, now);
      if StepAt(os, n - 1).restarted {
        RecentAppend(Recent(before, o.budgetAt), o.restartAt, now);
        RecentAppend(Restarts(os, n - 1), o.restartAt, now);
      } else {
        assert Restarts(os, n) == Restarts(os, n - 1);
      }
    }
  }

  lemma {:induction false} RestartsAscend(os: seq<Observation>, n: nat)
    requires Chronological(os) && n <= |os|
    ensures Ascending(Restarts(os, n))
    ensures forall i :: 0 <= i < |Restarts(os, n)| ==> Restarts(os, n)[i] <= Clock(os, n)
  {
    if n > 0 {
      hide Observed, StateAt, Chronological, Clock;
      RestartsAscend(os, n - 1);
      ClockRuns(os, n);
    }
  }

  /** Entries that are two apart are an hour apart. */
  ghost predicate Spaced(ts: seq<nat>)
  {
    forall i, k :: 0 <= i && i + 2 <= k < |ts| ==> ts[i] + HOUR <= ts[k]
  }

  lemma SpacedAppends(ts: seq<nat>, t: nat)
    requires Spaced(ts) && Ascending(ts) && (|ts| >= 2 ==> ts[|ts| - 2] + HOUR <= t)
    ensures Spaced(ts + [t])
  {
  }

  lemma NextRestartIsLate(os: seq<Observation>, n: nat)
    requires Chronological(os) && n < |os| && StepAt(os, n).restarted && |Restarts(os, n)| >= 2
    ensures Restarts(os, n)[|Restarts(os, n)| - 2] + HOUR <= os[n].restartAt
  {
    hide Observed, StateAt, Chronological, Clock, Recent, Restarts, Ascending;
    RestartsAscend(os, n);
    ClockRuns(os, n + 1);
    RestartStep(StateAt(os, n), os[n]);
    RestartsPersisted(os, n, os[n].budgetAt);
    FewRecent(Restarts(os, n), os[n].budgetAt);
  }

  lemma {:induction false} RestartsSpaced(os: seq<Observation>, n: nat)
    requires Chronological(os) && n <= |os|
    ensures Spaced(Restarts(os, n))
  {
    if n > 0 {
      hide Observed, StateAt, Chronological, Clock, Recent, Ascending, Spaced;
      RestartsSpaced(os, n - 1);
      if StepAt(os, n - 1).restarted {
        RestartsAscend(os, n - 1);
        if |Restarts(os, n - 1)| >= 2 {
          NextRestartIsLate(os, n - 1);
        }
        SpacedAppends(Restarts(os, n - 1), os[n - 1].restartAt);
      } else {
        assert Restarts(os, n) == Restarts(os, n - 1);
      }
    } else {
      assert Spaced([]);
    }
  }

  lemma ThreeOf(window: set<nat>) returns (a: nat, b: nat, c: nat)
    requires |window| > 2
    ensures a in window && b in window && c in window && a < b < c
  {
    a := Least(window);
    assert |window - {a}| > 1;
    b := Least(window - {a});
    assert |window - {a} - {b}| > 0;
    c := Least(window - {a} - {b});
  }

  lemma {:induction false} Least(window: set<nat>) returns (a: nat)
    requires window != {}
    ensures a in window && forall x :: x in window ==> a <= x
    decreases |window|
  {
    a :| a in window;
    if window != {a} {
      assert window - {a} != {} by {
        assert window == (window - {a}) + {a};
      }
      assert forall x :: x in window ==> x == a || x in window - {a};
      var b := Least(window - {a});
      if b < a {
        a := b;
      }
    }
  }

  /** No half-open hour holds more restarts than the budget, over all checks together. */
  lemma BudgetHolds(os: seq<Observation>, w: nat, window: set<nat>)
    requires Chronological(os)
    requires forall i :: i in window ==> i < |Restarts(os, |os|)| && w <= Restarts(os, |os|)[i] < w + HOUR
    ensures |window| <= RESTART_BUDGET
  {
    hide Chronological, Restarts;
    if |window| > RESTART_BUDGET {
      RestartsSpaced(os, |os|);
      var a, b, c := ThreeOf(window);
      assert false;
    }
  }

  // What leads to a restart.

  /** `j` is the last observation of `key` before the `n`-th. */
  ghost predicate LastSeen(os: seq<Observation>, n: nat, key: Check, j: nat)
    requires n <= |os|
  {
    j < n && os[j].key == key && forall m :: j < m < n ==> os[m].key != key
  }

  lemma {:induction false} FailsSeen(os: seq<Observation>, n: nat, key: Check)
    requires n <= |os| && Of(StateAt(os, n), key).fails > 0
    ensures exists j: nat :: LastSeen(os, n, key, j) && os[j].failed
  {
    if os[n - 1].key == key {
      assert LastSeen(os, n, key, n - 1);
    } else {
      hide Observed;
      OtherChecks(StateAt(os, n - 1), os[n - 1], key);
      FailsSeen(os, n - 1, key);
      var j: nat :| LastSeen(os, n - 1, key, j) && os[j].failed;
      assert LastSeen(os, n, key, j);
    }
  }

  /** The gateway is restarted only for a check a restart can fix, seen failing twice running, with no run active. */
  lemma RestartsAreCorroborated(os: seq<Observation>, i: nat)
    requires i < |os| && StepAt(os, i).restarted
    ensures RestartFixable(os[i].key) && os[i].failed && os[i].runs == 0
    ensures exists j: nat :: LastSeen(os, i, os[i].key, j) && os[j].failed
  {
    RestartStep(StateAt(os, i), os[i]);
    FailsSeen(os, i, os[i].key);
  }

  // The alerts of one check.

  datatype Sent = Sent(alert: Alert, at: nat)

  function Stream(os: seq<Observation>, n: nat, key: Check): seq<Sent>
    requires n <= |os|
  {
    if n == 0 then []
    else
      Stream(os, n - 1, key)
      + if os[n - 1].key == key && StepAt(os, n - 1).alerts != [] then [Sent(StepAt(os, n - 1).alerts[0], os[n - 1].endAt)] else []
  }

  /** An observation raises one alert at most, of its own check; recovery is never a page. */
  lemma AlertsOfStep(s: State, o: Observation)
    ensures var out := Observed(s, o);
            && |out.alerts| <= 1
            && forall a :: a in out.alerts ==> a.key == o.key && (a.Resolves() ==> a.severity == Notice)
  {
  }

  lemma AlertingStep(s: State, o: Observation)
    ensures var out := Observed(s, o);
            && (out.alerts == [] ==> Of(out.state, o.key).alerting == Of(s, o.key).alerting)
            && (out.alerts != [] ==> Of(out.state, o.key).alerting == !out.alerts[0].Resolves())
            && (out.alerts != [] && out.alerts[0].Resolves() ==> Of(s, o.key).alerting)
  {
  }

  /** (non-resolving+ resolving)*, possibly broken off. */
  ghost predicate Shaped(sent: seq<Sent>)
  {
    forall i :: 0 <= i < |sent| && sent[i].alert.Resolves() ==> i > 0 && !sent[i - 1].alert.Resolves()
  }

  predicate Unresolved(sent: seq<Sent>)
  {
    sent != [] && !sent[|sent| - 1].alert.Resolves()
  }

  lemma ShapeAppends(sent: seq<Sent>, next: Sent)
    requires Shaped(sent) && (next.alert.Resolves() ==> Unresolved(sent))
    ensures Shaped(sent + [next]) && (Unresolved(sent + [next]) <==> !next.alert.Resolves())
  {
  }

  /** A check's alerts have that shape, and it is alerting while the last of them does not resolve. */
  lemma {:induction false} StreamShape(os: seq<Observation>, n: nat, key: Check)
    requires n <= |os|
    ensures Shaped(Stream(os, n, key))
    ensures Of(StateAt(os, n), key).alerting <==> Unresolved(Stream(os, n, key))
  {
    if n > 0 {
      hide Observed, Shaped, Unresolved;
      StreamShape(os, n - 1, key);
      var sent := Stream(os, n - 1, key);
      assert sent + [] == sent;
      if os[n - 1].key == key {
        AlertingStep(StateAt(os, n - 1), os[n - 1]);
        if StepAt(os, n - 1).alerts != [] {
          ShapeAppends(sent, Sent(StepAt(os, n - 1).alerts[0], os[n - 1].endAt));
        }
      } else {
        OtherChecks(StateAt(os, n - 1), os[n - 1], key);
      }
    } else {
      assert Shaped([]);
    }
  }

  /** Some alert strictly between the `i`-th and the `j`-th resolves. */
  ghost predicate ResolvedBetween(sent: seq<Sent>, i: nat, j: nat)
    requires j <= |sent|
  {
    exists m :: i < m < j && sent[m].alert.Resolves()
  }

  /** The throttle remembers every page since the last recovery. */
  ghost predicate Remembered(sent: seq<Sent>, p: Progress)
  {
    && (p.alertedAt.Some? ==> p.alerting)
    && forall i :: 0 <= i < |sent| && sent[i].alert.severity == Page && !ResolvedBetween(sent, i, |sent|) ==>
         p.alertedAt.Some? && sent[i].at <= p.alertedAt.value
  }

  ghost predicate PagesSpaced(sent: seq<Sent>)
  {
    forall i, j :: 0 <= i < j < |sent| && sent[i].alert.severity == Page && sent[j].alert.severity == Page ==>
      sent[i].at + REALERT <= sent[j].at || ResolvedBetween(sent, i, j)
  }

  /** One more alert keeps what the earlier ones show. */
  lemma BetweenAppend(sent: seq<Sent>, next: Sent, i: nat, j: nat)
    requires i < j <= |sent|
    ensures ResolvedBetween(sent + [next], i, j) <==> ResolvedBetween(sent, i, j)
    ensures ResolvedBetween(sent + [next], i, |sent| + 1) <==> ResolvedBetween(sent, i, |sent|) || next.alert.Resolves()
  {
    assert forall m :: 0 <= m < |sent| ==> (sent + [next])[m] == sent[m];
    if next.alert.Resolves() {
      assert (sent + [next])[|sent|].alert.Resolves();
    }
    if m :| i < m < |sent| && sent[m].alert.Resolves() {
      assert (sent + [next])[m].alert.Resolves();
    }
  }

  lemma SpacedAppend(sent: seq<Sent>, p: Progress, next: Sent, p': Progress)
    requires Remembered(sent, p) && PagesSpaced(sent)
    requires next.alert.severity == Page && p.alertedAt.Some? ==> p.alertedAt.value + REALERT <= next.at
    requires p'.alertedAt.Some? ==> p'.alerting
    requires !next.alert.Resolves() ==> p.alertedAt.Some? ==> p'.alertedAt.Some? && p.alertedAt.value <= p'.alertedAt.value
    requires next.alert.severity == Page ==> p'.alertedAt == Some(next.at)
    requires next.alert.Resolves() ==> next.alert.severity == Notice
    ensures Remembered(sent + [next], p') && PagesSpaced(sent + [next])
  {
    var more := sent + [next];
    forall i | 0 <= i < |sent|
      ensures ResolvedBetween(more, i, |more|) <==> ResolvedBetween(sent, i, |sent|) || next.alert.Resolves()
      ensures ResolvedBetween(more, i, |sent|) <==> ResolvedBetween(sent, i, |sent|)
    {
      BetweenAppend(sent, next, i, |sent|);
    }
    forall i, j | 0 <= i < j < |sent| ensures ResolvedBetween(more, i, j) <==> ResolvedBetween(sent, i, j) {
      BetweenAppend(sent, next, i, j);
    }
    hide ResolvedBetween;
    assert forall m :: 0 <= m < |sent| ==> more[m] == sent[m];
  }

  /** Two pages of a check less than half an hour apart have its recovery between them. */
  lemma {:induction false} PagesAreSpaced(os: seq<Observation>, n: nat, key: Check)
    requires Chronological(os) && n <= |os|
    ensures PagesSpaced(Stream(os, n, key)) && Remembered(Stream(os, n, key), Of(StateAt(os, n), key))
    ensures Of(StateAt(os, n), key).alertedAt.Some? ==> Of(StateAt(os, n), key).alertedAt.value <= Clock(os, n)
  {
    if n > 0 {
      hide Observed, PagesSpaced, Remembered, Chronological;
      PagesAreSpaced(os, n - 1, key);
      ClockRuns(os, n);
      var o, before := os[n - 1], StateAt(os, n - 1);
      var sent := Stream(os, n - 1, key);
      StillRemembers(sent, Of(before, key));
      assert sent + [] == sent;
      if o.key != key {
        OtherChecks(before, o, key);
      } else if Observed(before, o).alerts == [] {
        SilentStep(before, o);
        SameMemory(sent, Of(before, key), Of(StateAt(os, n), key));
      } else {
        SpacedStep(before, o);
        SpacedAppend(sent, Of(before, key), Sent(Observed(before, o).alerts[0], o.endAt), Of(StateAt(os, n), key));
      }
    }
  }

  lemma SameMemory(sent: seq<Sent>, p: Progress, p': Progress)
    requires Remembered(sent, p) && p'.alertedAt == p.alertedAt && p'.alerting == p.alerting
    ensures Remembered(sent, p')
  {
  }

  lemma StillRemembers(sent: seq<Sent>, p: Progress)
    requires Remembered(sent, p)
    ensures p.alertedAt.Some? ==> p.alerting
  {
  }

  lemma SpacedStep(s: State, o: Observation)
    requires Observed(s, o).alerts != [] && o.at <= o.endAt
    requires var p := Of(s, o.key); p.alertedAt.Some? ==> p.alerting && p.alertedAt.value <= o.at
    ensures var a, p, p' := Observed(s, o).alerts[0], Of(s, o.key), Of(Observed(s, o).state, o.key);
            && (a.severity == Page && p.alertedAt.Some? ==> p.alertedAt.value + REALERT <= o.endAt)
            && (p'.alertedAt.Some? ==> p'.alerting && p'.alertedAt.value <= o.endAt)
            && (!a.Resolves() && p.alertedAt.Some? ==> p'.alertedAt.Some? && p.alertedAt.value <= p'.alertedAt.value)
            && (a.severity == Page ==> p'.alertedAt == Some(o.endAt))
            && (a.Resolves() ==> a.severity == Notice)
  {
  }

  /** A step without an alert keeps what the throttle remembers, or had nothing to remember. */
  lemma SilentStep(s: State, o: Observation)
    requires Observed(s, o).alerts == []
    requires var p := Of(s, o.key); p.alertedAt.Some? ==> p.alerting
    ensures Of(Observed(s, o).state, o.key).alertedAt == Of(s, o.key).alertedAt
    ensures Of(Observed(s, o).state, o.key).alerting == Of(s, o.key).alerting
  {
  }

  // Deferrals.

  /** Deferral notices of a check since its last recovery or attempted restart. */
  function Deferred(os: seq<Observation>, n: nat, key: Check): nat
    requires n <= |os|
  {
    if n == 0 then 0
    else if os[n - 1].key != key then Deferred(os, n - 1, key)
    else if !os[n - 1].failed || StepAt(os, n - 1).restarted then 0
    else Deferred(os, n - 1, key) + if Alert(Notice, key, Deferring) in StepAt(os, n - 1).alerts then 1 else 0
  }

  lemma {:induction false} DeferralsBounded(os: seq<Observation>, n: nat, key: Check)
    requires n <= |os|
    ensures Deferred(os, n, key) <= MAX_RESTART_DEFERRALS
    ensures Deferred(os, n, key) == AtMost(Of(StateAt(os, n), key).deferrals)
  {
    if n > 0 {
      hide Observed;
      DeferralsBounded(os, n - 1, key);
      if os[n - 1].key == key {
        DeferralStep(StateAt(os, n - 1), os[n - 1]);
      } else {
        OtherChecks(StateAt(os, n - 1), os[n - 1], key);
      }
    }
  }

  function AtMost(deferrals: nat): nat
  {
    if deferrals <= MAX_RESTART_DEFERRALS then deferrals else MAX_RESTART_DEFERRALS
  }

  lemma DeferralStep(s: State, o: Observation)
    ensures var out := Observed(s, o);
            AtMost(Of(out.state, o.key).deferrals) ==
            if !o.failed || out.restarted then 0
            else AtMost(Of(s, o.key).deferrals) + if Alert(Notice, o.key, Deferring) in out.alerts then 1 else 0
  {
  }

  /** While the budget lasts, the first observations kept from restarting by active runs are notices, the rest pages. */
  lemma BlockedRestartsPage(os: seq<Observation>, i: nat)
    requires i < |os| && StepAt(os, i).alerts != [] && StepAt(os, i).alerts[0].reason == Blocked
    ensures Deferred(os, i, os[i].key) == MAX_RESTART_DEFERRALS && os[i].runs > 0
  {
    DeferralsBounded(os, i, os[i].key);
  }
}

/** When the monitor must act, and how, in terms of the run so far. */
module HeartbeatDuties {
  import opened Basics
  import opened Heartbeat
  import opened HeartbeatRuns

  // The history of one check.

  /** Observation `j` passed, or the restart it led to brought the gateway back. */
  predicate Cleared(os: seq<Observation>, j: nat)
    requires j < |os|
  {
    !os[j].failed || (StepAt(os, j).restarted && os[j].repaired)
  }

  /** The check failed when it was last seen, too, and that failure was not cleared. */
  ghost predicate FailsAgain(os: seq<Observation>, i: nat)
    requires i < |os|
  {
    os[i].failed && exists j: nat :: LastSeen(os, i, os[i].key, j) && !Cleared(os, j)
  }

  /** Observation `j` raised an alert that holds back the next ones: any but a recovery or a notice of deferral. */
  predicate Stamps(os: seq<Observation>, j: nat)
    requires j < |os|
  {
    exists a :: a in StepAt(os, j).alerts && a.reason != Deferring && a.reason != Recovered
  }

  /** No observation of `key` from the `j`-th to the `n`-th is cleared. */
  ghost predicate UnclearedSince(os: seq<Observation>, n: nat, key: Check, j: nat)
    requires n <= |os|
  {
    j < n && os[j].key == key && forall m: nat :: j <= m < n && os[m].key == key ==> !Cleared(os, m)
  }

  /** Such an alert was raised for the check less than half an hour ago, and the check has not cleared since. */
  ghost predicate HeldBack(os: seq<Observation>, i: nat)
    requires i < |os|
  {
    exists j: nat :: UnclearedSince(os, i, os[i].key, j) && Stamps(os, j) && os[i].at < os[j].endAt + REALERT
  }

  ghost predicate MustAct(os: seq<Observation>, i: nat)
    requires i < |os|
  {
    FailsAgain(os, i) && !HeldBack(os, i)
  }

  /** The earlier observations that restarted the gateway within the hour before time `now`. */
  function RestartsSince(os: seq<Observation>, n: nat, now: nat): set<nat>
    requires n <= |os|
  {
    set j: nat | j < n && StepAt(os, j).restarted && os[j].restartAt + HOUR > now
  }

  ghost predicate BudgetLeft(os: seq<Observation>, i: nat)
    requires i < |os|
  {
    |RestartsSince(os, i, os[i].budgetAt)| < RESTART_BUDGET
  }

  /** The failures of `key` among the first `n` observations since it last cleared. */
  function Failures(os: seq<Observation>, n: nat, key: Check): nat
    requires n <= |os|
  {
    if n == 0 then 0
    else if os[n - 1].key != key then Failures(os, n - 1, key)
    else if Cleared(os, n - 1) then 0
    else Failures(os, n - 1, key) + 1
  }

  // What the persisted progress of a check says about its history.

  function LastStamp(os: seq<Observation>, n: nat, key: Check): Option<nat>
    requires n <= |os|
  {
    if n == 0 then None
    else if os[n - 1].key != key then LastStamp(os, n - 1, key)
    else if Cleared(os, n - 1) then None
    else if Stamps(os, n - 1) then Some(os[n - 1].endAt)
    else LastStamp(os, n - 1, key)
  }

  lemma ProgressStep(s: State, o: Observation)
    ensures var out := Observed(s, o);
            var p, p' := Of(s, o.key), Of(out.state, o.key);
            && p'.fails == (if !o.failed || (out.restarted && o.repaired) then 0 else p.fails + 1)
            && p'.alertedAt == if !o.failed || (out.restarted && o.repaired) then None
                               else if exists a :: a in out.alerts && a.reason != Deferring && a.reason != Recovered
                               then Some(o.endAt) else p.alertedAt
  {
    var out := Observed(s, o);
    assert out.alerts != [] ==> out.alerts[0] in out.alerts;
  }

  lemma {:induction false} ProgressIs(os: seq<Observation>, n: nat, key: Check)
    requires n <= |os|
    ensures Of(StateAt(os, n), key).fails == Failures(os, n, key)
    ensures Of(StateAt(os, n), key).alertedAt == LastStamp(os, n, key)
  {
    if n > 0 {
      hide Observed;
      ProgressIs(os, n - 1, key);
      if os[n - 1].key == key {
        ProgressStep(StateAt(os, n - 1), os[n - 1]);
      } else {
        OtherChecks(StateAt(os, n - 1), os[n - 1], key);
      }
    }
  }

  lemma {:induction false} FailuresSeen(os: seq<Observation>, n: nat, key: Check)
    requires n <= |os|
    ensures Failures(os, n, key) > 0 <==> exists j: nat :: LastSeen(os, n, key, j) && !Cleared(os, j)
  {
    if n > 0 {
      hide Cleared;
      if os[n - 1].key == key {
        assert LastSeen(os, n, key, n - 1);
      } else {
        FailuresSeen(os, n - 1, key);
        assert forall j: nat :: LastSeen(os, n, key, j) <==> LastSeen(os, n - 1, key, j);
      }
    }
  }

  ghost predicate StampedAt(os: seq<Observation>, n: nat, key: Check, j: nat)
    requires n <= |os|
  {
    UnclearedSince(os, n, key, j) && Stamps(os, j)
  }

  lemma StampedStep(os: seq<Observation>, n: nat, key: Check, j: nat)
    requires 0 < n <= |os|
    ensures StampedAt(os, n, key, j) <==>
            if j == n - 1 then os[j].key == key && !Cleared(os, j) && Stamps(os, j)
            else StampedAt(os, n - 1, key, j) && (os[n - 1].key == key ==> !Cleared(os, n - 1))
  {
  }

  /** The throttle holds the latest of the alerts that stamped it. */
  lemma {:induction false} LastStampIs(os: seq<Observation>, n: nat, key: Check)
    requires Chronological(os) && n <= |os|
    ensures forall j: nat :: StampedAt(os, n, key, j) ==>
              LastStamp(os, n, key).Some? && os[j].endAt <= LastStamp(os, n, key).value
    ensures LastStamp(os, n, key).Some? ==>
              exists j: nat :: StampedAt(os, n, key, j) && os[j].endAt == LastStamp(os, n, key).value
  {
    if n > 0 {
      hide Cleared, Stamps, StampedAt, StepAt;
      LastStampIs(os, n - 1, key);
      forall j: nat {
        StampedStep(os, n, key, j);
      }
      assert forall j: nat :: j < n - 1 ==> os[j].endAt <= os[n - 1].endAt;
    }
  }

  lemma HeldBackIs(os: seq<Observation>, i: nat)
    requires Chronological(os) && i < |os|
    ensures HeldBack(os, i) <==> !Due(Of(StateAt(os, i), os[i].key), os[i].at)
  {
    hide Observed, StateAt, Stamps, Cleared;
    ProgressIs(os, i, os[i].key);
    LastStampIs(os, i, os[i].key);
    if HeldBack(os, i) {
      var j: nat :| UnclearedSince(os, i, os[i].key, j) && Stamps(os, j) && os[i].at < os[j].endAt + REALERT;
      assert StampedAt(os, i, os[i].key, j);
    }
  }

  lemma SinceStep(os: seq<Observation>, n: nat, now: nat)
    requires 0 < n <= |os|
    ensures |RestartsSince(os, n, now)| == |RestartsSince(os, n - 1, now)| +
            if StepAt(os, n - 1).restarted && os[n - 1].restartAt + HOUR > now then 1 else 0
  {
    hide StepAt;
    var before := RestartsSince(os, n - 1, now);
    if StepAt(os, n - 1).restarted && os[n - 1].restartAt + HOUR > now {
      assert RestartsSince(os, n, now) == before + {n - 1};
    } else {
      assert RestartsSince(os, n, now) == before;
    }
  }

  lemma RecentStep(os: seq<Observation>, n: nat, now: nat)
    requires 0 < n <= |os|
    ensures |Recent(Restarts(os, n), now)| == |Recent(Restarts(os, n - 1), now)| +
            if StepAt(os, n - 1).restarted && os[n - 1].restartAt + HOUR > now then 1 else 0
  {
    hide StepAt, Recent;
    if StepAt(os, n - 1).restarted {
      RecentAppend(Restarts(os, n - 1), os[n - 1].restartAt, now);
    } else {
      assert Restarts(os, n) == Restarts(os, n - 1);
    }
  }

  lemma NoneYet(os: seq<Observation>, now: nat)
    ensures RestartsSince(os, 0, now) == {} && Recent(Restarts(os, 0), now) == []
  {
  }

  lemma {:induction false} RestartsCounted(os: seq<Observation>, n: nat, now: nat)
    requires n <= |os|
    ensures |Recent(Restarts(os, n), now)| == |RestartsSince(os, n, now)|
  {
    hide Restarts, Recent, RestartsSince, StepAt;
    if n == 0 {
      NoneYet(os, now);
    } else {
      RestartsCounted(os, n - 1, now);
      SinceStep(os, n, now);
      RecentStep(os, n, now);
    }
  }

  lemma BudgetIs(os: seq<Observation>, i: nat)
    requires Chronological(os) && i < |os|
    ensures BudgetLeft(os, i) <==> |Recent(StateAt(os, i).restarts, os[i].budgetAt)| < RESTART_BUDGET
  {
    hide Observed, StateAt, Recent, Restarts;
    RestartsCounted(os, i, os[i].budgetAt);
    RestartsPersisted(os, i, os[i].budgetAt);
  }

  /** The progress and the budget an observation finds, in terms of the run before it. */
  lemma FoundProgress(os: seq<Observation>, i: nat)
    requires Chronological(os) && i < |os|
    ensures var p := Of(StateAt(os, i), os[i].key);
            && (MustAct(os, i) <==> os[i].failed && p.fails > 0 && Due(p, os[i].at))
            && p.fails == Failures(os, i, os[i].key)
            && (p.alerting <==> Unresolved(Stream(os, i, os[i].key)))
            && AtMost(p.deferrals) == Deferred(os, i, os[i].key)
            && (BudgetLeft(os, i) <==> |Recent(StateAt(os, i).restarts, os[i].budgetAt)| < RESTART_BUDGET)
  {
    hide StateAt, Failures, HeldBack, BudgetLeft, Cleared, LastSeen, Stream, Unresolved, Deferred, Recent, Due, Observed, LastStamp;
    var key := os[i].key;
    ProgressIs(os, i, key);
    FailuresSeen(os, i, key);
    HeldBackIs(os, i);
    BudgetIs(os, i);
    StreamShape(os, i, key);
    DeferralsBounded(os, i, key);
  }

  // What the monitor does.

  lemma ActionStep(s: State, o: Observation)
    ensures var out, p := Observed(s, o), Of(s, o.key);
            var acts := o.failed && p.fails > 0 && Due(p, o.at);
            var left := |Recent(s.restarts, o.budgetAt)| < RESTART_BUDGET;
            && (out.restarted <==> acts && RestartFixable(o.key) && left && o.runs == 0)
            && out.alerts ==
               if !o.failed || (out.restarted && o.repaired) then
                 if p.alerting then [Alert(Notice, o.key, Recovered)] else []
               else if !acts then []
               else if !RestartFixable(o.key) then
                 [Alert(if o.key.Canary? && p.fails + 1 < CANARY_PAGE_AFTER then Notice else Page, o.key, NotFixable)]
               else if !left then [Alert(Page, o.key, BudgetSpent)]
               else if o.runs == 0 then [Alert(Page, o.key, RestartFailed)]
               else if AtMost(p.deferrals) < MAX_RESTART_DEFERRALS then [Alert(Notice, o.key, Deferring)]
               else [Alert(Page, o.key, Blocked)]
  {
  }

  /** The gateway is restarted exactly when a check a restart can fix fails again, no alert holds it back, the budget
      lasts and no run is active. */
  lemma RestartsIff(os: seq<Observation>, i: nat)
    requires Chronological(os) && i < |os|
    ensures StepAt(os, i).restarted <==>
            MustAct(os, i) && RestartFixable(os[i].key) && BudgetLeft(os, i) && os[i].runs == 0
  {
    hide Observed, StateAt, MustAct, BudgetLeft, Due, Recent, Stream, Deferred, Failures, Unresolved;
    FoundProgress(os, i);
    ActionStep(StateAt(os, i), os[i]);
  }

  /** What each observation raises. A failure seen once, or held back, raises nothing; a check that clears raises its
      recovery if its last alert stands. */
  lemma AlertsAre(os: seq<Observation>, i: nat)
    requires Chronological(os) && i < |os|
    ensures var o, alerts := os[i], StepAt(os, i).alerts;
            if Cleared(os, i) then
              alerts == if Unresolved(Stream(os, i, o.key)) then [Alert(Notice, o.key, Recovered)] else []
            else if !MustAct(os, i) then alerts == []
            else if !RestartFixable(o.key) then
              alerts == [Alert(if o.key.Canary? && Failures(os, i + 1, o.key) < CANARY_PAGE_AFTER then Notice else Page,
                               o.key, NotFixable)]
            else if !BudgetLeft(os, i) then alerts == [Alert(Page, o.key, BudgetSpent)]
            else if o.runs == 0 then alerts == [Alert(Page, o.key, RestartFailed)]
            else if Deferred(os, i, o.key) < MAX_RESTART_DEFERRALS then alerts == [Alert(Notice, o.key, Deferring)]
            else alerts == [Alert(Page, o.key, Blocked)]
  {
    hide Observed, StateAt, MustAct, BudgetLeft, Due, Recent, Stream, Deferred, Unresolved;
    FoundProgress(os, i);
    ActionStep(StateAt(os, i), os[i]);
  }

  /** A page that the budget is spent means just that. */
  lemma BudgetPageIff(os: seq<Observation>, i: nat)
    requires Chronological(os) && i < |os|
    ensures Alert(Page, os[i].key, BudgetSpent) in StepAt(os, i).alerts <==>
            MustAct(os, i) && RestartFixable(os[i].key) && !BudgetLeft(os, i)
  {
    hide StepAt, MustAct, BudgetLeft, Stream, Deferred, Unresolved, Failures;
    RestartsIff(os, i);
    AlertsAre(os, i);
    if MustAct(os, i) {
      MustActFailed(os, i);
    }
  }

  lemma MustActFailed(os: seq<Observation>, i: nat)
    requires i < |os| && MustAct(os, i)
    ensures os[i].failed
  {
  }
}

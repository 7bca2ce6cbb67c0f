/** The gateway's self-healing monitor: what one failing or passing observation of a check does. Times are seconds. */
module Heartbeat {
  import opened Basics

  datatype Check = GatewayUp | VerifiedRuntime | ProviderUp | Canary(agent: string)

  const REALERT := 30 * 60
  const HOUR := 60 * 60
  const RESTART_BUDGET := 2
  const MAX_RESTART_DEFERRALS := 2
  const CANARY_PAGE_AFTER := 4

  predicate RestartFixable(key: Check)
  {
    key.GatewayUp? || key.VerifiedRuntime?
  }

  datatype Severity = Notice | Page

  datatype Reason = Deferring | Blocked | RestartFailed | BudgetSpent | NotFixable | Recovered

  datatype Alert = Alert(severity: Severity, key: Check, reason: Reason)
  {
    predicate Resolves()
    {
      reason == Recovered
    }
  }

  datatype Progress = Progress(fails: nat, alertedAt: Option<nat>, alerting: bool, deferrals: nat)

  const QUIET := Progress(0, None, false, 0)

  datatype State = State(checks: map<Check, Progress>, restarts: seq<nat>)

  const START := State(map[], [])

  /** One observation of a check, with the readings of the clock it takes and what it finds out on the way: how many
      agent runs are active, and whether a restart brings the gateway back. */
  datatype Observation = Observation(key: Check, failed: bool, at: nat, budgetAt: nat, restartAt: nat, endAt: nat,
                                     runs: nat, repaired: bool)

  function Of(s: State, key: Check): Progress
  {
    if key in s.checks then s.checks[key] else QUIET
  }

  /** The restarts less than an hour old. */
  function Recent(restarts: seq<nat>, now: nat): seq<nat>
  {
    if restarts == [] then []
    else
      var last := restarts[|restarts| - 1];
      Recent(restarts[..|restarts| - 1], now) + if last + HOUR > now then [last] else []
  }

  datatype Outcome = Outcome(state: State, alerts: seq<Alert>, restarted: bool)

  /** The alert is due unless one was raised less than half an hour ago. */
  predicate Due(p: Progress, at: nat)
  {
    p.alertedAt.None? || at >= p.alertedAt.value + REALERT
  }

  /** A failing check whose alert is due, once its failures are counted. */
  function Acted(s: State, o: Observation, p: Progress): Outcome
  {
    var recent := Recent(s.restarts, o.budgetAt);
    var raised := p.(alertedAt := Some(o.endAt), alerting := true);
    if !RestartFixable(o.key) then
      var severity := if o.key.Canary? && p.fails < CANARY_PAGE_AFTER then Notice else Page;
      Outcome(State(s.checks[o.key := raised], s.restarts), [Alert(severity, o.key, NotFixable)], false)
    else if |recent| >= RESTART_BUDGET then
      Outcome(State(s.checks[o.key := raised], recent), [Alert(Page, o.key, BudgetSpent)], false)
    else if o.runs > 0 then
      var waiting := p.(deferrals := p.deferrals + 1, alerting := true);
      if waiting.deferrals <= MAX_RESTART_DEFERRALS then
        Outcome(State(s.checks[o.key := waiting], recent), [Alert(Notice, o.key, Deferring)], false)
      else
        Outcome(State(s.checks[o.key := waiting.(alertedAt := Some(o.endAt))], recent), [Alert(Page, o.key, Blocked)], false)
    else if o.repaired then
      Outcome(State(s.checks[o.key := QUIET], recent + [o.restartAt]),
              if p.alerting then [Alert(Notice, o.key, Recovered)] else [], true)
    else
      Outcome(State(s.checks[o.key := raised.(deferrals := 0)], recent + [o.restartAt]),
              [Alert(Page, o.key, RestartFailed)], true)
  }

  function Observed(s: State, o: Observation): Outcome
  {
    var p := Of(s, o.key);
    if !o.failed then
      Outcome(State(s.checks[o.key := QUIET], s.restarts), if p.alerting then [Alert(Notice, o.key, Recovered)] else [], false)
    else
      var counted := p.(fails := p.fails + 1);
      if counted.fails >= 2 && Due(p, o.at) then Acted(s, o, counted)
      else Outcome(State(s.checks[o.key := counted], s.restarts), [], false)
  }

  /** The monitor's persisted state and the step that updates it. */
  class Monitor {
    var checks: map<Check, Progress>
    var restarts: seq<nat>

    constructor ()
      ensures View() == START
    {
      checks, restarts := map[], [];
    }

    function View(): State
      reads this
    {
      State(checks, restarts)
    }

    method RestartBudgetLeft(now: nat) returns (left: int)
      modifies this`restarts
      ensures restarts == Recent(old(restarts), now)
      ensures left == RESTART_BUDGET - |restarts|
    {
      var kept := [];
      for i := 0 to |restarts|
        invariant kept == Recent(restarts[..i], now) && restarts == old(restarts)
      {
        assert restarts[..i + 1][..i] == restarts[..i];
        if restarts[i] + HOUR > now {
          kept := kept + [restarts[i]];
        }
      }
      assert restarts[..|restarts|] == restarts;
      restarts := kept;
      left := RESTART_BUDGET - |restarts|;
    }

    method Process(o: Observation) returns (alerts: seq<Alert>, restarted: bool)
      modifies this
      ensures Outcome(View(), alerts, restarted) == Observed(old(View()), o)
    {
      var c := if o.key in checks then checks[o.key] else QUIET;
      alerts, restarted := [], false;
      if o.failed {
        c := c.(fails := c.fails + 1);
        var due := c.alertedAt.None? || o.at >= c.alertedAt.value + REALERT;
        if c.fails >= 2 && due {
          var left := 0;
          if RestartFixable(o.key) {
            left := RestartBudgetLeft(o.budgetAt);
          }
          if RestartFixable(o.key) && left > 0 {
            if o.runs > 0 {
              c := c.(deferrals := c.deferrals + 1, alerting := true);
              if c.deferrals <= MAX_RESTART_DEFERRALS {
                alerts := [Alert(Notice, o.key, Deferring)];
              } else {
                c := c.(alertedAt := Some(o.endAt));
                alerts := [Alert(Page, o.key, Blocked)];
              }
              checks := checks[o.key := c];
              return;
            }
            c := c.(deferrals := 0);
            restarts, restarted := restarts + [o.restartAt], true;
            if o.repaired {
              if c.alerting {
                alerts := [Alert(Notice, o.key, Recovered)];
              }
              checks := checks[o.key := c.(fails := 0, alertedAt := None, alerting := false)];
              return;
            }
            alerts := [Alert(Page, o.key, RestartFailed)];
          } else if RestartFixable(o.key) {
            alerts := [Alert(Page, o.key, BudgetSpent)];
          } else if o.key.Canary? && c.fails < CANARY_PAGE_AFTER {
            alerts := [Alert(Notice, o.key, NotFixable)];
          } else {
            alerts := [Alert(Page, o.key, NotFixable)];
          }
          c := c.(alertedAt := Some(o.endAt), alerting := true);
        }
      } else {
        if c.alerting {
          alerts := [Alert(Notice, o.key, Recovered)];
        }
        c := QUIET;
      }
      checks := checks[o.key := c];
    }
  }
}

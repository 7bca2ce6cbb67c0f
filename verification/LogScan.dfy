/** The incremental scan of the gateway's daily logs for lost replies, and the throttled report of what it finds. */
module LogScan {
  import opened Basics
  import Heartbeat

  datatype Category = StalledRun | DroppedReply | DeadTranscript

  /** Which signatures a line holds. */
  datatype Line = Line(stalled: bool, dropped: bool, dead: bool)

  /** A line counts for the first of the signatures it holds. */
  function Signature(line: Line): Option<Category>
  {
    if line.stalled then Some(StalledRun)
    else if line.dropped then Some(DroppedReply)
    else if line.dead then Some(DeadTranscript)
    else None
  }

  function Tally(lines: seq<Line>, c: Category): nat
  {
    if lines == [] then 0
    else Tally(lines[..|lines| - 1], c) + if Signature(lines[|lines| - 1]) == Some(c) then 1 else 0
  }

  lemma {:induction false} TallySplits(xs: seq<Line>, ys: seq<Line>, c: Category)
    ensures Tally(xs + ys, c) == Tally(xs, c) + Tally(ys, c)
    decreases |ys|
  {
    if ys == [] {
      assert xs + ys == xs;
    } else {
      var init := ys[..|ys| - 1];
      assert (xs + ys)[..|xs + ys| - 1] == xs + init;
      TallySplits(xs, init, c);
    }
  }

  /** Counts by category; a category that never occurred is absent. */
  type Counts = map<Category, nat>

  function Get(m: Counts, c: Category): nat
  {
    if c in m then m[c] else 0
  }

  /** Each day's log, by day; a day without a log is absent. */
  type Logs = map<nat, seq<Line>>

  /** The log last read, and how many of its lines. */
  datatype Place = Place(day: Option<nat>, offset: nat)

  const NOWHERE := Place(None, 0)

  /** What a log holds from a line on; a missing log, or one that has shrunk below it, holds nothing. */
  function From(logs: Logs, day: nat, offset: nat): seq<Line>
  {
    if day in logs && offset <= |logs[day]| then logs[day][offset..] else []
  }

  /** The lines a scan still reads in the previous day's log. */
  function Drained(p: Place, logs: Logs, today: nat): seq<Line>
  {
    if p.day.Some? && p.day.value != today then From(logs, p.day.value, p.offset) else []
  }

  /** Where a scan leaves off, and the lines it read. */
  datatype Scan = Scan(place: Place, lines: seq<Line>)

  function Scanned(p: Place, logs: Logs, today: nat): Scan
  {
    var drained := Drained(p, logs, today);
    if today !in logs then Scan(p, drained)
    else
      var size := |logs[today]|;
      var offset := if p.day != Some(today) then (if p.day.Some? then 0 else size)
                    else if size < p.offset then 0 else p.offset;
      Scan(Place(Some(today), size), drained + logs[today][offset..])
  }

  class Scanner {
    var day: Option<nat>
    var offset: nat

    constructor ()
      ensures View() == NOWHERE
    {
      day, offset := None, 0;
    }

    function View(): Place
      reads this
    {
      Place(day, offset)
    }

    /** Count the signatures of a log from a line on; the new offset is where the reading stopped. */
    static method CountSignatures(logs: Logs, day: nat, start: nat, counts: Counts) returns (offset: nat, total: Counts)
      ensures forall c :: Get(total, c) == Get(counts, c) + Tally(From(logs, day, start), c)
      ensures (forall c :: c in counts ==> counts[c] > 0) ==> forall c :: c in total ==> total[c] > 0
      ensures offset == if day in logs && start <= |logs[day]| then |logs[day]| else start
    {
      offset, total := start, counts;
      if day in logs && start <= |logs[day]| {
        ghost var lines := logs[day][start..];
        assert lines[..offset - start] == [] && forall c :: Tally([], c) == 0;
        while offset < |logs[day]|
          invariant start <= offset <= |logs[day]|
          invariant forall c :: Get(total, c) == Get(counts, c) + Tally(lines[..offset - start], c)
          invariant (forall c :: c in counts ==> counts[c] > 0) ==> forall c :: c in total ==> total[c] > 0
        {
          var found := Signature(logs[day][offset]);
          assert lines[..offset + 1 - start][..offset - start] == lines[..offset - start];
          assert lines[offset - start] == logs[day][offset];
          if found.Some? {
            total := total[found.value := Get(total, found.value) + 1];
          }
          offset := offset + 1;
        }
        assert lines[..offset - start] == lines;
      }
    }

    method ScanSilentKills(logs: Logs, today: nat) returns (counts: Counts)
      modifies this
      ensures View() == Scanned(old(View()), logs, today).place
      ensures forall c :: Get(counts, c) == Tally(Scanned(old(View()), logs, today).lines, c)
      ensures forall c :: c in counts ==> counts[c] > 0
    {
      counts := map[];
      var previous := day;
      ghost var drained := Drained(View(), logs, today);
      if previous.Some? && previous.value != today {
        var ignored;
        ignored, counts := CountSignatures(logs, previous.value, offset, counts);
      }
      if today !in logs {
        return;
      }
      var size, start := |logs[today]|, 0;
      if previous != Some(today) {
        start := if previous.Some? then 0 else size;
        day := Some(today);
      } else {
        start := if size < offset then 0 else offset;
      }
      forall c ensures Tally(drained + logs[today][start..], c) == Tally(drained, c) + Tally(logs[today][start..], c) {
        TallySplits(drained, logs[today][start..], c);
      }
      offset, counts := CountSignatures(logs, today, start, counts);
    }
  }

  /** What each category counts: a line that holds several signatures counts for the first of them only. */
  predicate InCategory(line: Line, c: Category)
  {
    match c
    case StalledRun => line.stalled
    case DroppedReply => line.dropped && !line.stalled
    case DeadTranscript => line.dead && !line.stalled && !line.dropped
  }

  function Counted(lines: seq<Line>, c: Category): set<nat>
  {
    set i: nat | i < |lines| && InCategory(lines[i], c)
  }

  lemma CountedStep(lines: seq<Line>, c: Category)
    requires lines != []
    ensures var n := |lines| - 1;
            |Counted(lines, c)| == |Counted(lines[..n], c)| + if InCategory(lines[n], c) then 1 else 0
  {
    hide InCategory;
    var n := |lines| - 1;
    if InCategory(lines[n], c) {
      assert Counted(lines, c) == Counted(lines[..n], c) + {n};
    } else {
      assert Counted(lines, c) == Counted(lines[..n], c);
    }
  }

  lemma {:induction false} TallyCounts(lines: seq<Line>, c: Category)
    ensures Tally(lines, c) == |Counted(lines, c)|
    decreases |lines|
  {
    if lines == [] {
      assert Counted([], c) == {};
    } else {
      TallyCounts(lines[..|lines| - 1], c);
      CountedStep(lines, c);
      hide Counted;
    }
  }

  // Whole runs of scans.

  datatype Snapshot = Snapshot(logs: Logs, today: nat)
  {
    predicate Present()
    {
      today in logs
    }
  }

  function PlaceAfter(runs: seq<Snapshot>): Place
  {
    if runs == [] then NOWHERE
    else
      var last := runs[|runs| - 1];
      Scanned(PlaceAfter(runs[..|runs| - 1]), last.logs, last.today).place
  }

  /** Every line read, in order. */
  function LinesRead(runs: seq<Snapshot>): seq<Line>
  {
    if runs == [] then []
    else
      var init, last := runs[..|runs| - 1], runs[|runs| - 1];
      LinesRead(init) + Scanned(PlaceAfter(init), last.logs, last.today).lines
  }

  /** From one scan to the next the logs only grow, those of past days not at all, and one day ends at most. */
  ghost predicate Grows(before: Snapshot, after: Snapshot)
  {
    && before.today <= after.today <= before.today + 1
    && forall d :: d in before.logs ==> d in after.logs && before.logs[d] <= after.logs[d]
                                        && (d < before.today ==> before.logs[d] == after.logs[d])
  }

  ghost predicate Orderly(runs: seq<Snapshot>)
  {
    && (forall i :: 0 <= i < |runs| ==> runs[i].Present())
    && forall i :: 0 < i < |runs| ==> Grows(runs[i - 1], runs[i])
  }

  /** The lines of the days `lo`, ..., `hi`. */
  function Since(logs: Logs, lo: nat, hi: nat): seq<Line>
    decreases hi
  {
    if hi < lo then []
    else if hi == 0 then From(logs, 0, 0)
    else Since(logs, lo, hi - 1) + From(logs, hi, 0)
  }

  /** What was logged after the first scan, up to the last. */
  function Logged(first: Snapshot, last: Snapshot): seq<Line>
    requires first.Present()
  {
    From(last.logs, first.today, |first.logs[first.today]|) + Since(last.logs, first.today + 1, last.today)
  }

  lemma {:induction false} SinceKept(before: Logs, after: Logs, lo: nat, hi: nat)
    requires forall d :: lo <= d <= hi ==> From(before, d, 0) == From(after, d, 0)
    ensures Since(before, lo, hi) == Since(after, lo, hi)
    decreases hi
  {
    if lo <= hi && hi > 0 {
      SinceKept(before, after, lo, hi - 1);
    }
  }

  lemma {:induction false} DaysAscend(runs: seq<Snapshot>)
    requires Orderly(runs) && runs != []
    ensures runs[0].today <= runs[|runs| - 1].today
  {
    if |runs| > 1 {
      DaysAscend(runs[..|runs| - 1]);
    }
  }

  /** Every day since the first scan has its log. */
  lemma {:induction false} DaysKept(runs: seq<Snapshot>, d: nat)
    requires Orderly(runs) && runs != [] && runs[0].today <= d <= runs[|runs| - 1].today
    ensures d in runs[|runs| - 1].logs
    ensures d == runs[0].today ==> runs[0].logs[d] <= runs[|runs| - 1].logs[d]
    decreases |runs|
  {
    if |runs| > 1 {
      var init := runs[..|runs| - 1];
      DaysAscend(init);
      if d <= init[|init| - 1].today {
        DaysKept(init, d);
      }
    }
  }

  /** The days up to the last one before have gained what was added to that one. */
  lemma SameDayGrows(first: Snapshot, before: Snapshot, after: Snapshot)
    requires first.Present() && before.Present() && after.Present() && Grows(before, after) && first.today <= before.today
    requires forall d :: first.today <= d <= before.today ==> d in before.logs
    requires first.logs[first.today] <= before.logs[first.today]
    ensures From(after.logs, first.today, |first.logs[first.today]|) + Since(after.logs, first.today + 1, before.today) ==
            Logged(first, before) + after.logs[before.today][|before.logs[before.today]|..]
  {
    var f, t, base := first.today, before.today, |first.logs[first.today]|;
    var kept, more := before.logs[t], after.logs[t][|before.logs[t]|..];
    assert after.logs[t] == kept + more;
    if f == t {
      assert From(after.logs, f, base) == From(before.logs, f, base) + more;
    } else {
      SinceKept(before.logs, after.logs, f + 1, t - 1);
      assert From(after.logs, t, 0) == From(before.logs, t, 0) + more;
    }
  }

  /** What one more scan reads is what was logged since the one before. */
  lemma LoggedGrows(first: Snapshot, before: Snapshot, after: Snapshot)
    requires first.Present() && before.Present() && after.Present() && Grows(before, after) && first.today <= before.today
    requires forall d :: first.today <= d <= before.today ==> d in before.logs
    requires first.logs[first.today] <= before.logs[first.today]
    ensures Logged(first, after) ==
            Logged(first, before) + Scanned(Place(Some(before.today), |before.logs[before.today]|), after.logs, after.today).lines
  {
    SameDayGrows(first, before, after);
    var t, more := before.today, after.logs[before.today][|before.logs[before.today]|..];
    if after.today == t {
      assert Scanned(Place(Some(t), |before.logs[t]|), after.logs, t).lines == more;
    } else {
      assert after.logs[after.today][0..] == From(after.logs, after.today, 0);
      var today := From(after.logs, after.today, 0);
      assert Scanned(Place(Some(t), |before.logs[t]|), after.logs, after.today).lines == more + today;
      assert Since(after.logs, first.today + 1, after.today) == Since(after.logs, first.today + 1, t) + today;
      assert Logged(first, before) + more + today == Logged(first, before) + (more + today);
    }
  }

  /** Over all the scans, exactly the lines logged after the first are read: each once, and in order. */
  lemma {:induction false} ReadOnce(runs: seq<Snapshot>)
    requires Orderly(runs) && runs != []
    ensures LinesRead(runs) == Logged(runs[0], runs[|runs| - 1])
    decreases |runs|
  {
    if |runs| == 1 {
      assert runs[..0] == [];
    } else {
      hide Grows, Logged, Scanned;
      var init := runs[..|runs| - 1];
      ReadOnce(init);
      DaysAscend(init);
      var before := init[|init| - 1];
      forall d | runs[0].today <= d <= before.today ensures d in before.logs {
        DaysKept(init, d);
      }
      DaysKept(init, runs[0].today);
      LoggedGrows(runs[0], init[|init| - 1], runs[|runs| - 1]);
    }
  }

  /** A log that has shrunk since the last scan of the day is read from its start. */
  lemma ShrunkLogReadAgain(runs: seq<Snapshot>, next: Snapshot)
    requires runs != [] && runs[|runs| - 1].Present() && next.Present()
    requires var last := runs[|runs| - 1];
             next.today == last.today && |next.logs[next.today]| < |last.logs[last.today]|
    ensures LinesRead(runs + [next]) == LinesRead(runs) + next.logs[next.today]
  {
    OneMoreScan(runs, next);
    assert next.logs[next.today][0..] == next.logs[next.today];
    hide LinesRead;
    assert [] + next.logs[next.today] == next.logs[next.today];
  }

  // Scans while today's log is missing.

  /** The scans that found today's log. */
  function Kept(runs: seq<Snapshot>): (kept: seq<Snapshot>)
    ensures forall s :: s in kept ==> s.Present()
  {
    if runs == [] then []
    else Kept(runs[..|runs| - 1]) + if runs[|runs| - 1].Present() then [runs[|runs| - 1]] else []
  }

  /** The lines added to the log of the last scan that found its own, when that was on an earlier day. */
  function AddedSince(kept: seq<Snapshot>, now: Snapshot): seq<Line>
    requires forall s :: s in kept ==> s.Present()
  {
    if kept == [] then []
    else
      var last := kept[|kept| - 1];
      assert last in kept && last.Present();
      if last.today == now.today then [] else From(now.logs, last.today, |last.logs[last.today]|)
  }

  /** What scans without today's log find added to an earlier one, to be read again by the next scan. */
  function ReadAgain(runs: seq<Snapshot>): seq<Line>
  {
    if runs == [] then []
    else
      var init, last := runs[..|runs| - 1], runs[|runs| - 1];
      ReadAgain(init) + if last.Present() then [] else AddedSince(Kept(init), last)
  }

  /** No scan without today's log finds a loss added to the last log found. */
  ghost predicate NoneFollows(runs: seq<Snapshot>, c: Category)
  {
    forall i :: 0 <= i < |runs| && !runs[i].Present() ==> Tally(AddedSince(Kept(runs[..i]), runs[i]), c) == 0
  }

  lemma NoneFollowsStep(runs: seq<Snapshot>, c: Category)
    requires runs != []
    ensures var init, last := runs[..|runs| - 1], runs[|runs| - 1];
            NoneFollows(runs, c) <==>
            NoneFollows(init, c) && (!last.Present() ==> Tally(AddedSince(Kept(init), last), c) == 0)
  {
    hide Tally, Kept, AddedSince;
    var init := runs[..|runs| - 1];
    assert forall i :: 0 <= i < |init| ==> init[i] == runs[i] && init[..i] == runs[..i];
    if NoneFollows(runs, c) {
      forall i | 0 <= i < |init| && !init[i].Present() ensures Tally(AddedSince(Kept(init[..i]), init[i]), c) == 0 {
        assert !runs[i].Present();
      }
    }
  }

  lemma {:induction false} NothingAgainIff(runs: seq<Snapshot>, c: Category)
    ensures Tally(ReadAgain(runs), c) == 0 <==> NoneFollows(runs, c)
    decreases |runs|
  {
    NoneTallied(c);
    if runs != [] {
      hide Tally, Kept, AddedSince, NoneFollows;
      var init, last := runs[..|runs| - 1], runs[|runs| - 1];
      NothingAgainIff(init, c);
      TallySplits(ReadAgain(init), if last.Present() then [] else AddedSince(Kept(init), last), c);
      NoneFollowsStep(runs, c);
    }
  }

  lemma NoneTallied(c: Category)
    ensures Tally([], c) == 0
  {
  }

  lemma OneMoreScan(runs: seq<Snapshot>, next: Snapshot)
    ensures PlaceAfter(runs + [next]) == Scanned(PlaceAfter(runs), next.logs, next.today).place
    ensures LinesRead(runs + [next]) == LinesRead(runs) + Scanned(PlaceAfter(runs), next.logs, next.today).lines
  {
    hide Scanned;
    assert (runs + [next])[..|runs|] == runs;
  }

  lemma {:induction false} AbsentRunsKeepPlace(runs: seq<Snapshot>)
    ensures PlaceAfter(runs) == PlaceAfter(Kept(runs))
    decreases |runs|
  {
    if runs != [] {
      var init, last := runs[..|runs| - 1], runs[|runs| - 1];
      AbsentRunsKeepPlace(init);
      if last.Present() {
        OneMoreScan(Kept(init), last);
      } else {
        assert Kept(runs) == Kept(init);
      }
    }
  }

  /** The place kept is the end of the last log found. */
  lemma PlaceOfKept(runs: seq<Snapshot>)
    ensures var kept := Kept(runs);
            if kept == [] then PlaceAfter(runs) == NOWHERE
            else
              var last := kept[|kept| - 1];
              last in kept && Place(Some(last.today), |last.logs[last.today]|) == PlaceAfter(runs)
  {
    AbsentRunsKeepPlace(runs);
    var kept := Kept(runs);
    if kept != [] {
      assert kept[|kept| - 1] in kept;
    }
  }

  lemma AbsentScanReads(runs: seq<Snapshot>, now: Snapshot)
    requires !now.Present()
    ensures Scanned(PlaceAfter(runs), now.logs, now.today).lines == AddedSince(Kept(runs), now)
  {
    hide PlaceAfter;
    PlaceOfKept(runs);
  }

  /** Scans without today's log change nothing, and count what they drain over and above. */
  lemma {:induction false} AbsentRunsOnlyRecount(runs: seq<Snapshot>, c: Category)
    ensures Tally(LinesRead(runs), c) == Tally(LinesRead(Kept(runs)), c) + Tally(ReadAgain(runs), c)
    decreases |runs|
  {
    if runs != [] {
      var init, last := runs[..|runs| - 1], runs[|runs| - 1];
      var lines := Scanned(PlaceAfter(init), last.logs, last.today).lines;
      AbsentRunsKeepPlace(init);
      AbsentRunsOnlyRecount(init, c);
      TallySplits(LinesRead(init), lines, c);
      hide Tally, PlaceAfter, AddedSince, Scanned;
      if last.Present() {
        OneMoreScan(Kept(init), last);
        TallySplits(LinesRead(Kept(init)), lines, c);
        assert ReadAgain(runs) == ReadAgain(init);
      } else {
        AbsentScanReads(init, last);
        TallySplits(ReadAgain(init), lines, c);
        assert Kept(runs) == Kept(init);
      }
    }
  }

  /** Each loss is counted once exactly when no scan without today's log finds one added to the last log found. */
  lemma CountedOnceIff(runs: seq<Snapshot>, c: Category)
    requires Orderly(Kept(runs)) && Kept(runs) != []
    ensures Tally(LinesRead(runs), c) == Tally(Logged(Kept(runs)[0], Kept(runs)[|Kept(runs)| - 1]), c)
            <==> NoneFollows(runs, c)
  {
    hide LinesRead, Kept, ReadAgain, Logged, Orderly, Tally, NoneFollows;
    NothingAgainIff(runs, c);
    AbsentRunsOnlyRecount(runs, c);
    ReadOnce(Kept(runs));
  }

  /** One lost reply, found while today's log is missing, is counted again by the next scan. */
  lemma MissingLogCountsTwice(lost: Line, first: Snapshot, missing: Snapshot, late: Snapshot)
    requires lost == Line(true, false, false)
    requires first == Snapshot(map[0 := []], 0) && missing == Snapshot(map[0 := [lost]], 1)
    requires late == Snapshot(map[0 := [lost], 1 := []], 1)
    ensures LinesRead([first, missing, late]) == [lost, lost]
    ensures Kept([first, missing, late]) == [first, late] && Orderly([first, late]) && Logged(first, late) == [lost]
  {
    hide LinesRead, PlaceAfter, Scanned, Kept, Grows, Logged;
    ScansOfThree(first, missing, late);
    ThreeKept(first, missing, late);
    FirstScan(first);
    LateScan(missing, [lost]);
    LateScan(late, [lost]);
    OneLost(first, late, [lost]);
    assert [] + [lost] + [lost] == [lost, lost];
  }

  lemma ScansOfThree(first: Snapshot, missing: Snapshot, late: Snapshot)
    ensures var one := Scanned(NOWHERE, first.logs, first.today);
            var two := Scanned(one.place, missing.logs, missing.today);
            LinesRead([first, missing, late]) == one.lines + two.lines + Scanned(two.place, late.logs, late.today).lines
  {
    hide LinesRead, PlaceAfter, Scanned;
    OneMoreScan([], first);
    OneMoreScan([first], missing);
    OneMoreScan([first, missing], late);
    NoScans();
    assert [] + [first] == [first] && [first] + [missing] == [first, missing];
    assert [first, missing] + [late] == [first, missing, late];
    assert [] + Scanned(NOWHERE, first.logs, first.today).lines == Scanned(NOWHERE, first.logs, first.today).lines;
  }

  lemma NoScans()
    ensures LinesRead([]) == [] && PlaceAfter([]) == NOWHERE
  {
  }

  lemma FirstScan(first: Snapshot)
    requires first.Present() && first.today == 0 && first.logs[0] == []
    ensures Scanned(NOWHERE, first.logs, 0) == Scan(Place(Some(0), 0), [])
  {
  }

  lemma LateScan(late: Snapshot, lines: seq<Line>)
    requires 0 in late.logs && late.logs[0] == lines && late.today == 1 && (late.Present() ==> late.logs[1] == [])
    ensures Scanned(Place(Some(0), 0), late.logs, 1).lines == lines
    ensures !late.Present() ==> Scanned(Place(Some(0), 0), late.logs, 1).place == Place(Some(0), 0)
  {
    assert lines[0..] == lines && lines + [] == lines;
  }

  lemma OneLost(first: Snapshot, late: Snapshot, lines: seq<Line>)
    requires first.logs.Keys == {0} && first.today == 0 && first.logs[0] == []
    requires 0 in late.logs && late.logs[0] == lines && late.today == 1 && late.Present() && late.logs[1] == []
    ensures Orderly([first, late]) && Logged(first, late) == lines
  {
    assert Since(late.logs, 1, 0) == [] && From(late.logs, 1, 0) == [];
    assert Since(late.logs, 1, 1) == [] + [];
    assert From(late.logs, 0, 0) == lines;
    assert Grows(first, late);
  }

  lemma ThreeKept(first: Snapshot, missing: Snapshot, late: Snapshot)
    requires first.Present() && !missing.Present() && late.Present()
    ensures Kept([first, missing, late]) == [first, late]
  {
    assert [first, missing, late][..2] == [first, missing] && [first, missing][..1] == [first] && [first][..0] == [];
    assert Kept([first]) == [first];
    assert Kept([first, missing]) == [first];
  }

  // The throttled report.

  datatype Report = Report(pending: Counts, alertedAt: Option<nat>)

  /** New counts, and the readings of the clock that decide on and stamp the alert. */
  datatype Feed = Feed(counts: Counts, at: nat, endAt: nat)

  function Added(m: Counts, n: Counts): Counts
  {
    map c | c in m.Keys + n.Keys :: Get(m, c) + Get(n, c)
  }

  /** `sum` is `m` with what `n` counts added, except for the categories in `left`. */
  ghost predicate Partly(sum: Counts, m: Counts, n: Counts, left: set<Category>)
  {
    && sum.Keys == m.Keys + (n.Keys - left)
    && forall c :: c in sum ==> sum[c] == Get(m, c) + if c in left then 0 else Get(n, c)
  }

  lemma NoneAdded(m: Counts, n: Counts)
    ensures Partly(m, m, n, n.Keys)
  {
  }

  lemma OneAdded(sum: Counts, m: Counts, n: Counts, left: set<Category>, c: Category)
    requires Partly(sum, m, n, left) && c in left && left <= n.Keys
    ensures Partly(sum[c := Get(sum, c) + n[c]], m, n, left - {c})
  {
    var sum' := sum[c := Get(sum, c) + n[c]];
    assert sum'.Keys == m.Keys + (n.Keys - (left - {c}));
    assert Get(sum, c) == Get(m, c);
  }

  lemma AllAdded(sum: Counts, m: Counts, n: Counts)
    requires Partly(sum, m, n, {})
    ensures sum == Added(m, n)
  {
  }

  datatype Reporting = Reporting(report: Report, told: Option<Counts>)

  function Reported(r: Report, feed: Feed): Reporting
  {
    var pending := Added(r.pending, feed.counts);
    if pending == map[] || (r.alertedAt.Some? && feed.at < r.alertedAt.value + Heartbeat.REALERT) then Reporting(r.(pending := pending), None)
    else Reporting(Report(map[], Some(feed.endAt)), Some(pending))
  }

  class Reporter {
    var pending: Counts
    var alertedAt: Option<nat>

    constructor ()
      ensures View() == Report(map[], None)
    {
      pending, alertedAt := map[], None;
    }

    function View(): Report
      reads this
    {
      Report(pending, alertedAt)
    }

    method Accumulate(counts: Counts)
      modifies this`pending
      ensures pending == Added(old(pending), counts)
    {
      hide Partly, Added, Get;
      ghost var before := pending;
      var left := counts.Keys;
      NoneAdded(before, counts);
      while left != {}
        invariant left <= counts.Keys && Partly(pending, before, counts, left)
        decreases |left|
      {
        var c :| c in left;
        OneAdded(pending, before, counts, left, c);
        pending := pending[c := Get(pending, c) + counts[c]];
        left := left - {c};
      }
      AllAdded(pending, before, counts);
    }

    method ProcessSilentKills(feed: Feed) returns (told: Option<Counts>)
      modifies this
      ensures Reporting(View(), told) == Reported(old(View()), feed)
    {
      hide Added;
      Accumulate(feed.counts);
      if pending == map[] {
        return None;
      }
      if alertedAt.Some? && feed.at < alertedAt.value + Heartbeat.REALERT {
        return None;
      }
      told := Some(pending);
      pending := map[];
      alertedAt := Some(feed.endAt);
    }
  }

  function ReportAfter(feeds: seq<Feed>): Report
  {
    if feeds == [] then Report(map[], None)
    else Reported(ReportAfter(feeds[..|feeds| - 1]), feeds[|feeds| - 1]).report
  }

  function Fed(feeds: seq<Feed>, c: Category): nat
  {
    if feeds == [] then 0 else Fed(feeds[..|feeds| - 1], c) + Get(feeds[|feeds| - 1].counts, c)
  }

  datatype Told = Told(counts: Counts, at: nat)

  function Alerts(feeds: seq<Feed>): seq<Told>
  {
    if feeds == [] then []
    else
      var init, last := feeds[..|feeds| - 1], feeds[|feeds| - 1];
      match Reported(ReportAfter(init), last).told
      case None => Alerts(init)
      case Some(counts) => Alerts(init) + [Told(counts, last.endAt)]
  }

  function AllTold(alerts: seq<Told>, c: Category): nat
  {
    if alerts == [] then 0 else AllTold(alerts[..|alerts| - 1], c) + Get(alerts[|alerts| - 1].counts, c)
  }

  /** Of each category, what was fed in has been told or is pending. */
  lemma {:induction false} NothingLost(feeds: seq<Feed>, c: Category)
    ensures Fed(feeds, c) == AllTold(Alerts(feeds), c) + Get(ReportAfter(feeds).pending, c)
    decreases |feeds|
  {
    if feeds != [] {
      var init, last := feeds[..|feeds| - 1], feeds[|feeds| - 1];
      NothingLost(init, c);
      if Reported(ReportAfter(init), last).told.Some? {
        assert Alerts(feeds)[..|Alerts(feeds)| - 1] == Alerts(init);
      }
    }
  }

  /** The losses of `c` that no alert has told of yet. */
  function Untold(feeds: seq<Feed>, c: Category): int
    requires feeds != []
  {
    Fed(feeds, c) - AllTold(Alerts(feeds[..|feeds| - 1]), c)
  }

  ghost predicate OnlyPositive(m: Counts)
  {
    forall c :: c in m ==> m[c] > 0
  }

  lemma {:induction false} PendingPositive(feeds: seq<Feed>)
    requires forall i :: 0 <= i < |feeds| ==> OnlyPositive(feeds[i].counts)
    ensures OnlyPositive(ReportAfter(feeds).pending)
    decreases |feeds|
  {
    if feeds != [] {
      PendingPositive(feeds[..|feeds| - 1]);
    }
  }

  /** An alert is raised exactly when some loss is untold and the alerts before it are half an hour old; it tells of
      every loss untold. */
  lemma TellsIff(feeds: seq<Feed>)
    requires feeds != [] && forall i :: 0 <= i < |feeds| ==> OnlyPositive(feeds[i].counts)
    requires forall i :: 0 <= i < |feeds| ==> feeds[i].at <= feeds[i].endAt
    requires forall i, j :: 0 <= i < j < |feeds| ==> feeds[i].endAt <= feeds[j].at
    ensures var before, last := Alerts(feeds[..|feeds| - 1]), feeds[|feeds| - 1];
            var tells := (exists c :: Untold(feeds, c) > 0)
                         && forall i :: 0 <= i < |before| ==> before[i].at + Heartbeat.REALERT <= last.at;
            && |Alerts(feeds)| == |before| + (if tells then 1 else 0)
            && before <= Alerts(feeds)
            && (tells ==> Alerts(feeds)[|before|].at == last.endAt
                          && forall c :: Get(Alerts(feeds)[|before|].counts, c) == Untold(feeds, c))
  {
    var init, last := feeds[..|feeds| - 1], feeds[|feeds| - 1];
    PendingPositive(init);
    AlertsSpaced(init);
    forall c ensures Untold(feeds, c) == Get(Added(ReportAfter(init).pending, last.counts), c) {
      NothingLost(init, c);
    }
    var pending := Added(ReportAfter(init).pending, last.counts);
    if pending != map[] {
      var c :| c in pending;
      assert Untold(feeds, c) > 0;
    }
  }

  /** Alerts are half an hour apart. */
  lemma {:induction false} AlertsSpaced(feeds: seq<Feed>)
    requires forall i :: 0 <= i < |feeds| ==> feeds[i].at <= feeds[i].endAt
    requires forall i, j :: 0 <= i < j < |feeds| ==> feeds[i].endAt <= feeds[j].at
    ensures forall i, j :: 0 <= i < j < |Alerts(feeds)| ==> Alerts(feeds)[i].at + Heartbeat.REALERT <= Alerts(feeds)[j].at
    ensures Alerts(feeds) == [] <==> ReportAfter(feeds).alertedAt == None
    ensures Alerts(feeds) != [] ==> ReportAfter(feeds).alertedAt == Some(Alerts(feeds)[|Alerts(feeds)| - 1].at)
    decreases |feeds|
  {
    if feeds != [] {
      AlertsSpaced(feeds[..|feeds| - 1]);
    }
  }
}

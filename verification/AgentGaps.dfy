/**
 Where the agent's bookkeeping differs from what its documentation promises: the window of check results,
 failures of the automatic inspection, and waivers.
 */
module AgentGaps {
  import opened AgentMachine
  import opened AgentSafety

  // ----- the window of check results -----

  function Latest<T>(s: seq<T>, n: nat): seq<T> { if |s| > n then s[|s| - n..] else s }

  function ResultsOf(reports: seq<Report>): (rs: seq<CheckResult>)
    ensures |rs| == |reports| && forall i :: 0 <= i < |rs| ==> rs[i] == ResultOf(reports[i])
  {
    seq(|reports|, i requires 0 <= i < |reports| => ResultOf(reports[i]))
  }

  /** How many of the reports are booked before one stops the booking. */
  function Booked(cfg: Config, s: State, reports: seq<Report>): (k: nat)
    ensures k <= |reports|
    decreases |reports|
  {
    if reports == [] then 0
    else
      var next := ApplyReport(s, reports[0]);
      if !reports[0].passed && AtFailureLimit(cfg, next, ReportSignature(reports[0])) then 1
      else 1 + Booked(cfg, next, reports[1..])
  }

  /** Pushing the first of the reports, then the rest. */
  lemma PushInTurn(rs: seq<CheckResult>, reports: seq<Report>, k: nat)
    requires 0 < k <= |reports|
    ensures Latest(rs + ResultsOf(reports[..k]), WINDOW)
            == Latest(Latest(rs + [ResultOf(reports[0])], WINDOW) + ResultsOf(reports[1..][..k - 1]), WINDOW)
  {
    var rest := ResultsOf(reports[1..][..k - 1]);
    assert ResultsOf(reports[..k]) == [ResultOf(reports[0])] + rest;
    assert rs + ResultsOf(reports[..k]) == rs + [ResultOf(reports[0])] + rest;
  }

  lemma ReportPushes(s: State, r: Report)
    requires |s.results| <= WINDOW
    ensures ApplyReport(s, r).results == Latest(s.results + [ResultOf(r)], WINDOW)
  {
  }

  lemma {:induction false} ReportsPush(cfg: Config, s: State, reports: seq<Report>)
    requires |s.results| <= WINDOW
    ensures ApplyReports(cfg, s, reports).0.results
            == Latest(s.results + ResultsOf(reports[..Booked(cfg, s, reports)]), WINDOW)
    decreases |reports|
  {
    if reports == [] {
      NothingPushed(s.results);
    } else {
      var next := ApplyReport(s, reports[0]);
      var k := Booked(cfg, s, reports);
      ReportPushes(s, reports[0]);
      PushInTurn(s.results, reports, k);
      if !reports[0].passed && AtFailureLimit(cfg, next, ReportSignature(reports[0])) {
        assert k == 1 && reports[1..][..0] == [];
        NothingPushed(next.results);
      } else {
        assert k == 1 + Booked(cfg, next, reports[1..]);
        ReportsPush(cfg, next, reports[1..]);
      }
    }
  }

  lemma NothingPushed(rs: seq<CheckResult>)
    requires |rs| <= WINDOW
    ensures Latest(rs + ResultsOf([]), WINDOW) == rs
  {
  }

  /** What is left of pushed results behind the first `before` entries. */
  lemma WindowAfterPushes(rs: seq<CheckResult>, pushed: seq<CheckResult>)
    requires |rs| <= WINDOW
    ensures var all := Latest(rs + pushed, WINDOW);
            var dropped := Dropped(|rs|, |pushed|);
            (if |rs| < |all| then all[|rs|..] else []) == if dropped < |pushed| then pushed[dropped..] else []
  {
  }

  /**
   The final inspection looks for a passed diff in the results pushed since it began, by the old
   length of a list that keeps only the latest 200.  It finds one exactly when a booked report after
   the first `before + k - 200` is a passed diff; with a full list it finds none.
   */
  lemma DiffFoundExactlyWhen(cfg: Config, s: State, reports: seq<Report>)
    requires |s.results| <= WINDOW
    ensures var k := Booked(cfg, s, reports);
            DiffPassed(NewResults(ApplyReports(cfg, s, reports).0, |s.results|))
            <==> exists i :: 0 <= i < k && |s.results| + k <= WINDOW + i && ShowsDiff(reports[i])
  {
    var k := Booked(cfg, s, reports);
    var pushed := ResultsOf(reports[..k]);
    var found := NewResults(ApplyReports(cfg, s, reports).0, |s.results|);
    ReportsPush(cfg, s, reports);
    WindowAfterPushes(s.results, pushed);
    FoundAmong(reports, |s.results|, k, found);
  }

  function Dropped(before: nat, k: nat): nat { if before + k > WINDOW then before + k - WINDOW else 0 }

  lemma FoundAmong(reports: seq<Report>, before: nat, k: nat, found: seq<CheckResult>)
    requires k <= |reports|
    requires found == if Dropped(before, k) < k then ResultsOf(reports[..k])[Dropped(before, k)..] else []
    ensures DiffPassed(found) <==> exists i :: 0 <= i < k && before + k <= WINDOW + i && ShowsDiff(reports[i])
  {
  }

  // ----- failures of the final check -----

  function FailureOf(r: Report): multiset<Signature> {
    if r.passed then multiset{} else multiset{ReportSignature(r)}
  }

  /** The failures counted for the reports. */
  function FailuresOf(reports: seq<Report>): multiset<Signature>
    decreases |reports|
  {
    if reports == [] then multiset{} else FailureOf(reports[0]) + FailuresOf(reports[1..])
  }

  lemma FailuresInTurn(reports: seq<Report>, k: nat)
    requires 0 < k <= |reports|
    ensures FailuresOf(reports[..k]) == FailureOf(reports[0]) + FailuresOf(reports[1..][..k - 1])
  {
    assert reports[..k][1..] == reports[1..][..k - 1];
  }

  lemma ReportCounted(s: State, r: Report)
    ensures ApplyReport(s, r).counted == s.counted + FailureOf(r)
  {
  }

  lemma {:induction false} ReportsCount(cfg: Config, s: State, reports: seq<Report>)
    ensures ApplyReports(cfg, s, reports).0.counted
            == s.counted + FailuresOf(reports[..Booked(cfg, s, reports)])
    decreases |reports|
  {
    if reports != [] {
      var next := ApplyReport(s, reports[0]);
      var k := Booked(cfg, s, reports);
      ReportCounted(s, reports[0]);
      FailuresInTurn(reports, k);
      if !reports[0].passed && AtFailureLimit(cfg, next, ReportSignature(reports[0])) {
        assert k == 1 && reports[1..][..0] == [];
      } else {
        assert k == 1 + Booked(cfg, next, reports[1..]);
        ReportsCount(cfg, next, reports[1..]);
      }
    }
  }

  /** The failures a check counts. */
  function CheckFailures(cfg: Config, s: State, check: Verification): multiset<Signature> {
    match check
    case Reports(reports) => FailuresOf(reports[..Booked(cfg, s, reports)])
    case RunnerError(message) => multiset{RunnerFailure(message)}
    case _ => multiset{}
  }

  /** The check shows the diff, and the window of results has room for it. */
  predicate FindsDiff(cfg: Config, s: State, check: Verification) {
    check.Reports?
    && var k := Booked(cfg, s, check.reports);
       exists i :: 0 <= i < k && |s.results| + k <= WINDOW + i && ShowsDiff(check.reports[i])
  }

  lemma CheckFindsDiff(cfg: Config, s: State, check: Verification)
    requires s.changed != [] && cfg.hasVerifier && Bounded(s) && !check.Refused?
    ensures var r := RunVerification(cfg, s, s.changed, check);
            && r.Checked?
            && r.state.counted == s.counted + CheckFailures(cfg, s, check)
            && (DiffPassed(NewResults(r.state, |s.results|)) <==> FindsDiff(cfg, s, check))
  {
    if check.Reports? {
      ReportsCount(cfg, s, check.reports);
      DiffFoundExactlyWhen(cfg, s, check.reports);
    }
  }

  lemma {:induction false} ReportsKeepFiles(cfg: Config, s: State, reports: seq<Report>)
    ensures var t := ApplyReports(cfg, s, reports).0; t.changed == s.changed && t.stall == s.stall
    ensures ApplyReports(cfg, s, reports).0.listing == Listing(ApplyReports(cfg, s, reports).0.errors, [])
    decreases |reports|
  {
    if reports != [] { ReportsKeepFiles(cfg, ApplyReport(s, reports[0]), reports[1..]); }
  }

  lemma CheckKeepsFiles(cfg: Config, s: State, check: Verification)
    requires s.listing == Listing(s.errors, [])
    ensures var r := RunVerification(cfg, s, s.changed, check);
            r.Checked? ==>
              r.state.changed == s.changed && r.state.stall == s.stall
              && r.state.listing == Listing(r.state.errors, [])
  {
    if check.Reports? { ReportsKeepFiles(cfg, s, check.reports); }
  }

  /** The gate on an uninspected change counts the response and stops the run by that count alone. */
  lemma UninspectedGateStopsExactlyWhen(cfg: Config, s: State, endHooks: EndHooks)
    requires Uninspected(cfg, s)
    ensures var p := Gate(cfg, s, endHooks);
            && p.state.counted == s.counted
            && (p.Running? <==> Increment(s.stall.count) < MaxFailures(cfg))
  {
    assert FINAL_DIFF in Obstacles(cfg, s).errors;
  }

  /**
   Main result: whatever the automatic inspection reports, its failures are counted, but their counts never
   stop the run.  It goes on exactly when the diff was found or the number of final responses without
   progress leaves room.
   */
  lemma FinalCheckStopsExactlyWhen(cfg: Config, s: State, check: Verification, endHooks: EndHooks)
    requires Uninspected(cfg, s) && cfg.gitAvailable && cfg.hasVerifier && Bounded(s)
    requires s.listing == Listing(s.errors, []) && !check.Refused?
    ensures var p := InspectAndGate(cfg, s, check, endHooks);
            && p.state.counted == s.counted + CheckFailures(cfg, s, check)
            && (p.Running? <==> FindsDiff(cfg, s, check) || Increment(s.stall.count) < MaxFailures(cfg))
  {
    var next := RunVerification(cfg, s, s.changed, check).state;
    var judged := Judged(next, |s.results|);
    CheckFindsDiff(cfg, s, check);
    CheckKeepsFiles(cfg, s, check);
    if !judged.inspected { UninspectedGateStopsExactlyWhen(cfg, judged, endHooks); }
  }

  // ----- waivers -----

  lemma {:induction false} ColonAfter(name: string, rest: string)
    requires forall i :: 0 <= i < |name| ==> name[i] != ':'
    ensures ColonIndex(name + ":" + rest) == |name|
    decreases |name|
  {
    var s := name + ":" + rest;
    if name != "" {
      ColonAfter(name[1..], rest);
      assert s[1..] == name[1..] + ":" + rest;
    }
  }

  lemma NamesHaveNoColon(c: Category)
    ensures forall i :: 0 <= i < |CategoryName(c)| ==> CategoryName(c)[i] != ':'
    ensures CategoryName(c) == "GitDiff" <==> c == GitDiff
  {
  }

  /** A waiver names a reported failure by its full key, or by its command unless it is the diff inspection's. */
  lemma WaivesReportExactlyWhen(waiver: string, c: Category, command: string)
    ensures Waives(waiver, ReportKey(c, command))
            <==> waiver == CategoryName(c) + ":" + command || (c != GitDiff && waiver == command)
  {
    var name := CategoryName(c);
    var suffix := name + ":" + command;
    NamesHaveNoColon(c);
    ColonAfter(name, command);
    assert suffix[..|name|] == name && suffix[|name| + 1..] == command;
  }

}

/** Eval gate records: one per suite, and the staging gate that aggregates them. */
module StagingGate {
  import opened Wrappers

  datatype Status = Passed | Failed | Error

  datatype CaseResult = CaseResult(
    caseId: string,
    passed: bool,
    score: real,
    failures: seq<string>,
    intent: string,
    route: Option<string>,
    errorCodes: seq<string>,
    policyCodes: seq<string>)

  datatype Record = Record(
    runner: string,
    suiteId: string,
    status: Status,
    total: Option<nat>,
    passed: Option<nat>,
    score: Option<real>,
    failedCaseIds: seq<string>,
    caseResults: seq<CaseResult>,
    errorMessage: Option<string>)

  // ---------------------------------------------------------------- suite records

  datatype Report = Report(total: nat, passed: nat, score: real, results: seq<CaseResult>)

  // How a suite run ended: a report of cases, a monitor summary, or an exception.
  datatype SuiteRun =
    | Cases(runner: string, suiteId: string, report: Report)
    | Summary(suiteId: string, ok: bool, score: real, failures: seq<string>)
    | Crash(runner: string, suiteId: string, message: string)

  function FailedIdsOf(results: seq<CaseResult>): seq<string> {
    if results == [] then []
    else
      var before := FailedIdsOf(results[..|results| - 1]);
      var last := results[|results| - 1];
      if last.passed then before else before + [last.caseId]
  }

  // Retrieval and monitor results carry no route, codes or findings of their own.
  function Plain(runner: string, r: CaseResult): CaseResult {
    if runner == "retrieval" then r.(intent := "retrieval", route := None, errorCodes := [], policyCodes := []) else r
  }

  function PlainAll(runner: string, results: seq<CaseResult>): seq<CaseResult> {
    seq(|results|, i requires 0 <= i < |results| => Plain(runner, results[i]))
  }

  function RecordOf(run: SuiteRun): Record {
    match run
    case Cases(runner, suiteId, report) =>
      Record(runner, suiteId, if report.passed == report.total then Passed else Failed,
             Some(report.total), Some(report.passed),
             Some(report.score), FailedIdsOf(PlainAll(runner, report.results)), PlainAll(runner, report.results), None)
    case Summary(suiteId, ok, score, failures) =>
      Record("monitor", suiteId, if ok then Passed else Failed, Some(1), Some(if ok then 1 else 0), Some(score),
             if ok then [] else [suiteId], [CaseResult(suiteId, ok, score, failures, "monitor", None, [], [])], None)
    case Crash(runner, suiteId, message) =>
      Record(runner, suiteId, Error, None, None, None, [], [], Some(message))
  }

  function Records(runs: seq<SuiteRun>): seq<Record> {
    seq(|runs|, i requires 0 <= i < |runs| => RecordOf(runs[i]))
  }

  // ---------------------------------------------------------------- the aggregate

  function OrZero(n: Option<nat>): nat {
    if n.Some? then n.value else 0
  }

  function SumTotal(records: seq<Record>): nat {
    if records == [] then 0 else SumTotal(records[..|records| - 1]) + OrZero(records[|records| - 1].total)
  }

  function SumPassed(records: seq<Record>): nat {
    if records == [] then 0 else SumPassed(records[..|records| - 1]) + OrZero(records[|records| - 1].passed)
  }

  function Prefixed(prefix: string, ids: seq<string>): seq<string> {
    seq(|ids|, i requires 0 <= i < |ids| => prefix + ids[i])
  }

  // An empty message counts as none.
  function MessageOr(message: Option<string>, fallback: string): string {
    if message.Some? && message.value != "" then message.value else fallback
  }

  function RaisedCase(r: Record, c: CaseResult): CaseResult {
    c.(caseId := r.suiteId + ":" + c.caseId,
       failures := if c.failures != [] then c.failures else [MessageOr(r.errorMessage, "Eval case failed.")])
  }

  function FailedCases(r: Record, results: seq<CaseResult>): seq<CaseResult> {
    if results == [] then []
    else
      var before := FailedCases(r, results[..|results| - 1]);
      var last := results[|results| - 1];
      if last.passed then before else before + [RaisedCase(r, last)]
  }

  function RunnerError(r: Record): CaseResult {
    CaseResult(r.suiteId + ":runner_error", false, 0.0, [MessageOr(r.errorMessage, "Eval runner failed.")], r.runner,
               None, [], [])
  }

  // What one record adds to the aggregate's failures.
  function IdsFrom(r: Record): seq<string> {
    Prefixed(r.runner + ":" + r.suiteId + ":", r.failedCaseIds)
    + if r.status == Error then [r.runner + ":" + r.suiteId + ":" + "runner_error"] else []
  }

  function CasesFrom(r: Record): seq<CaseResult> {
    FailedCases(r, r.caseResults) + if r.status == Error then [RunnerError(r)] else []
  }

  function AllIds(records: seq<Record>): seq<string> {
    if records == [] then [] else AllIds(records[..|records| - 1]) + IdsFrom(records[|records| - 1])
  }

  function AllCases(records: seq<Record>): seq<CaseResult> {
    if records == [] then [] else AllCases(records[..|records| - 1]) + CasesFrom(records[|records| - 1])
  }

  predicate AnyStatus(records: seq<Record>, status: Status) {
    exists i :: 0 <= i < |records| && records[i].status == status
  }

  function StatusOf(records: seq<Record>): Status {
    if AnyStatus(records, Error) then Error else if AnyStatus(records, Failed) then Failed else Passed
  }

  function Share(passed: nat, total: nat): real {
    passed as real / (if total > 1 then total else 1) as real
  }

  function AggregateOf(records: seq<Record>): Record {
    Record("aggregate", "staging_release_gate", StatusOf(records), Some(SumTotal(records)), Some(SumPassed(records)),
           Some(Share(SumPassed(records), SumTotal(records))), AllIds(records), AllCases(records), None)
  }

  method AggregateEvalGateRecord(records: seq<Record>) returns (r: Record)
    ensures r == AggregateOf(records)
  {
    var total, passed := 0, 0;
    var ids: seq<string> := [];
    var cases: seq<CaseResult> := [];
    for i := 0 to |records|
      invariant total == SumTotal(records[..i]) && passed == SumPassed(records[..i])
      invariant ids == AllIds(records[..i]) && cases == AllCases(records[..i])
    {
      assert records[..i + 1][..i] == records[..i];
      var record := records[i];
      total := total + OrZero(record.total);
      passed := passed + OrZero(record.passed);
      var newIds, newCases := CollectFailures(record);
      ids := ids + newIds;
      cases := cases + newCases;
    }
    assert records[..|records|] == records;
    var status := Passed;
    if AnyStatus(records, Error) {
      status := Error;
    } else if AnyStatus(records, Failed) {
      status := Failed;
    }
    r := Record("aggregate", "staging_release_gate", status, Some(total), Some(passed), Some(Share(passed, total)),
                ids, cases, None);
  }

  method CollectFailures(record: Record) returns (ids: seq<string>, cases: seq<CaseResult>)
    ensures ids == IdsFrom(record) && cases == CasesFrom(record)
  {
    var prefix := record.runner + ":" + record.suiteId + ":";
    ids, cases := [], [];
    for j := 0 to |record.failedCaseIds|
      invariant ids == Prefixed(prefix, record.failedCaseIds[..j])
    {
      ids := ids + [prefix + record.failedCaseIds[j]];
    }
    assert record.failedCaseIds[..|record.failedCaseIds|] == record.failedCaseIds;
    for j := 0 to |record.caseResults|
      invariant cases == FailedCases(record, record.caseResults[..j])
    {
      assert record.caseResults[..j + 1][..j] == record.caseResults[..j];
      if !record.caseResults[j].passed {
        cases := cases + [RaisedCase(record, record.caseResults[j])];
      }
    }
    assert record.caseResults[..|record.caseResults|] == record.caseResults;
    if record.status == Error {
      ids := ids + [prefix + "runner_error"];
      cases := cases + [RunnerError(record)];
    }
  }

  // ---------------------------------------------------------------- conservation

  // No report claims more passes than cases.
  predicate Sane(run: SuiteRun) {
    run.Cases? ==> run.report.passed <= run.report.total
  }

  predicate AllSane(runs: seq<SuiteRun>) {
    forall i :: 0 <= i < |runs| ==> Sane(runs[i])
  }

  function Crashes(runs: seq<SuiteRun>): nat {
    if runs == [] then 0 else Crashes(runs[..|runs| - 1]) + if runs[|runs| - 1].Crash? then 1 else 0
  }

  lemma RecordsInit(runs: seq<SuiteRun>)
    requires runs != []
    ensures Records(runs)[..|runs| - 1] == Records(runs[..|runs| - 1])
  {
  }

  // Passes never exceed cases, and equal them exactly when no suite failed.
  lemma {:induction false} SumsAgree(runs: seq<SuiteRun>)
    requires AllSane(runs)
    ensures SumPassed(Records(runs)) <= SumTotal(Records(runs))
    ensures SumPassed(Records(runs)) == SumTotal(Records(runs)) <==> !AnyStatus(Records(runs), Failed)
  {
    if runs != [] {
      var init, last := runs[..|runs| - 1], runs[|runs| - 1];
      SumsAgree(init);
      RecordsInit(runs);
      AnyStatusAppend(Records(init), RecordOf(last), Failed);
      assert Records(runs) == Records(init) + [RecordOf(last)];
    }
  }

  lemma AnyStatusAppend(records: seq<Record>, r: Record, status: Status)
    ensures AnyStatus(records + [r], status) <==> AnyStatus(records, status) || r.status == status
  {
    if AnyStatus(records, status) {
      var i :| 0 <= i < |records| && records[i].status == status;
      assert (records + [r])[i].status == status;
    }
    if r.status == status {
      assert (records + [r])[|records|].status == status;
    }
  }

  lemma {:induction false} CrashesShow(runs: seq<SuiteRun>)
    ensures AnyStatus(Records(runs), Error) <==> Crashes(runs) > 0
  {
    if runs != [] {
      var init, last := runs[..|runs| - 1], runs[|runs| - 1];
      CrashesShow(init);
      AnyStatusAppend(Records(init), RecordOf(last), Error);
      assert Records(runs) == Records(init) + [RecordOf(last)];
    }
  }

  /** The gate passes exactly when no suite crashed and every case of every suite passed. */
  lemma PassedIff(runs: seq<SuiteRun>)
    requires AllSane(runs)
    ensures var r := AggregateOf(Records(runs)); r.status == Passed <==> Crashes(runs) == 0 && r.passed == r.total
  {
    SumsAgree(runs);
    CrashesShow(runs);
  }

  lemma ShareBounds(passed: nat, total: nat)
    requires passed <= total
    ensures 0.0 <= Share(passed, total) <= 1.0
    ensures Share(passed, total) == 1.0 <==> passed == total > 0
  {
    if total > 0 {
      assert Share(passed, total) == passed as real / total as real;
      Quotient(passed as real, total as real);
    }
  }

  lemma Quotient(a: real, b: real)
    requires 0.0 <= a <= b && b > 0.0
    ensures 0.0 <= a / b <= 1.0 && (a / b == 1.0 <==> a == b)
  {
    assert a / b * b == a;
  }

  /** The score lies in [0, 1], and is 1 exactly when there are cases and all of them passed. */
  lemma ScoreInRange(runs: seq<SuiteRun>)
    requires AllSane(runs)
    ensures var r := AggregateOf(Records(runs));
            0.0 <= r.score.value <= 1.0 && (r.score == Some(1.0) <==> r.passed == r.total && r.total != Some(0))
  {
    SumsAgree(runs);
    ShareBounds(SumPassed(Records(runs)), SumTotal(Records(runs)));
  }

  // A report that counts its own results, as the suite runners build it.
  function CountPassed(results: seq<CaseResult>): nat {
    if results == [] then 0
    else CountPassed(results[..|results| - 1]) + if results[|results| - 1].passed then 1 else 0
  }

  predicate Counted(run: SuiteRun) {
    run.Cases? ==> run.report.total == |run.report.results| && run.report.passed == CountPassed(run.report.results)
  }

  lemma {:induction false} FailuresCount(r: Record, results: seq<CaseResult>)
    ensures CountPassed(results) <= |results|
    ensures |FailedIdsOf(results)| == |FailedCases(r, results)| == |results| - CountPassed(results)
  {
    if results != [] {
      FailuresCount(r, results[..|results| - 1]);
    }
  }

  lemma {:induction false} PlainKeepsCount(runner: string, results: seq<CaseResult>)
    ensures CountPassed(PlainAll(runner, results)) == CountPassed(results)
  {
    if results != [] {
      PlainKeepsCount(runner, results[..|results| - 1]);
      assert PlainAll(runner, results)[..|results| - 1] == PlainAll(runner, results[..|results| - 1]);
    }
  }

  lemma RecordFailures(run: SuiteRun)
    requires Counted(run)
    ensures var r := RecordOf(run);
            && OrZero(r.passed) <= OrZero(r.total)
            && |IdsFrom(r)| == |CasesFrom(r)| == OrZero(r.total) - OrZero(r.passed) + if run.Crash? then 1 else 0
  {
    var r := RecordOf(run);
    match run
    case Cases(runner, suiteId, report) =>
      PlainKeepsCount(runner, report.results);
      FailuresCount(r, PlainAll(runner, report.results));
    case Summary(suiteId, ok, score, failures) =>
      assert r.caseResults[..|r.caseResults| - 1] == [];
      assert FailedCases(r, []) == [];
    case Crash(_, _, _) =>
  }

  lemma LastRecord(runs: seq<SuiteRun>)
    requires runs != []
    ensures var before, last := Records(runs[..|runs| - 1]), RecordOf(runs[|runs| - 1]);
            && SumTotal(Records(runs)) == SumTotal(before) + OrZero(last.total)
            && SumPassed(Records(runs)) == SumPassed(before) + OrZero(last.passed)
            && |AllIds(Records(runs))| == |AllIds(before)| + |IdsFrom(last)|
            && |AllCases(Records(runs))| == |AllCases(before)| + |CasesFrom(last)|
  {
    RecordsInit(runs);
  }

  /** Nothing is lost: the failures the gate lists are as many as the cases that did not pass, plus one for
      each suite that crashed. */
  lemma {:induction false} FailuresConserved(runs: seq<SuiteRun>)
    requires forall i :: 0 <= i < |runs| ==> Counted(runs[i])
    ensures SumPassed(Records(runs)) <= SumTotal(Records(runs))
    ensures |AllIds(Records(runs))| == |AllCases(Records(runs))|
         == SumTotal(Records(runs)) - SumPassed(Records(runs)) + Crashes(runs)
  {
    if runs != [] {
      FailuresConserved(runs[..|runs| - 1]);
      LastRecord(runs);
      RecordFailures(runs[|runs| - 1]);
    }
  }

  /** The order in which the suites ran changes neither the counts nor the verdict. */
  lemma OrderIrrelevant(a: seq<Record>, b: seq<Record>)
    requires multiset(a) == multiset(b)
    ensures SumTotal(a) == SumTotal(b) && SumPassed(a) == SumPassed(b) && StatusOf(a) == StatusOf(b)
  {
    SumOfMultiset(a, b);
    assert forall r :: r in a <==> r in multiset(a);
    assert forall r :: r in b <==> r in multiset(b);
    assert forall s :: AnyStatus(a, s) <==> exists r :: r in a && r.status == s;
    assert forall s :: AnyStatus(b, s) <==> exists r :: r in b && r.status == s;
  }

  lemma {:induction false} SumRemove(a: seq<Record>, i: nat)
    requires i < |a|
    ensures SumTotal(a) == SumTotal(a[..i] + a[i + 1..]) + OrZero(a[i].total)
    ensures SumPassed(a) == SumPassed(a[..i] + a[i + 1..]) + OrZero(a[i].passed)
  {
    var n := |a| - 1;
    if i == n {
      assert a[..i] + a[i + 1..] == a[..n];
    } else {
      SumRemove(a[..n], i);
      var rest := a[..i] + a[i + 1..];
      assert rest[..|rest| - 1] == a[..n][..i] + a[..n][i + 1..];
      assert rest[|rest| - 1] == a[n];
    }
  }

  lemma RemoveAt<T>(s: seq<T>, i: nat)
    requires i < |s|
    ensures multiset(s[..i] + s[i + 1..]) == multiset(s) - multiset{s[i]}
  {
    assert s == s[..i] + [s[i]] + s[i + 1..];
  }

  lemma {:induction false} SumOfMultiset(a: seq<Record>, b: seq<Record>)
    requires multiset(a) == multiset(b)
    ensures SumTotal(a) == SumTotal(b) && SumPassed(a) == SumPassed(b)
    decreases |a|
  {
    assert |multiset(a)| == |a| && |multiset(b)| == |b|;
    if a != [] {
      var n := |a| - 1;
      assert a[n] in multiset(b);
      var i :| 0 <= i < |b| && b[i] == a[n];
      var rest := b[..i] + b[i + 1..];
      RemoveAt(a, n);
      RemoveAt(b, i);
      assert a[..n] + a[n + 1..] == a[..n];
      SumOfMultiset(a[..n], rest);
      SumRemove(b, i);
    }
  }

  // ---------------------------------------------------------------- the counts and failures, by suite

  // How many cases a suite ran and passed: a summary is one case, and a crash is none.
  function CasesIn(run: SuiteRun): nat {
    match run case Cases(_, _, report) => report.total case Summary(_, _, _, _) => 1 case Crash(_, _, _) => 0
  }

  function PassesIn(run: SuiteRun): nat {
    match run
    case Cases(_, _, report) => report.passed
    case Summary(_, ok, _, _) => if ok then 1 else 0
    case Crash(_, _, _) => 0
  }

  function Total(counts: seq<nat>): nat {
    if counts == [] then 0 else Total(counts[..|counts| - 1]) + counts[|counts| - 1]
  }

  lemma {:induction false} SumsAre(runs: seq<SuiteRun>)
    ensures SumTotal(Records(runs)) == Total(seq(|runs|, i requires 0 <= i < |runs| => CasesIn(runs[i])))
    ensures SumPassed(Records(runs)) == Total(seq(|runs|, i requires 0 <= i < |runs| => PassesIn(runs[i])))
  {
    if runs != [] {
      var init := runs[..|runs| - 1];
      SumsAre(init);
      LastRecord(runs);
      var cases := seq(|runs|, i requires 0 <= i < |runs| => CasesIn(runs[i]));
      var passes := seq(|runs|, i requires 0 <= i < |runs| => PassesIn(runs[i]));
      assert cases[..|runs| - 1] == seq(|init|, i requires 0 <= i < |init| => CasesIn(init[i]));
      assert passes[..|runs| - 1] == seq(|init|, i requires 0 <= i < |init| => PassesIn(init[i]));
    }
  }

  // A failure listed for a record: one of its failed cases, or the record itself when it is an error.
  predicate Names(id: string, r: Record) {
    || (exists c :: c in r.failedCaseIds && id == r.runner + ":" + r.suiteId + ":" + c)
    || (r.status == Error && id == r.runner + ":" + r.suiteId + ":runner_error")
  }

  lemma NamedByRecord(id: string, r: Record)
    ensures id in IdsFrom(r) <==> Names(id, r)
  {
    var prefix := r.runner + ":" + r.suiteId + ":";
    var ids := Prefixed(prefix, r.failedCaseIds);
    assert prefix + "runner_error" == r.runner + ":" + r.suiteId + ":runner_error";
    if id in ids {
      var i :| 0 <= i < |ids| && ids[i] == id;
      assert r.failedCaseIds[i] in r.failedCaseIds;
    }
    if c :| c in r.failedCaseIds && id == prefix + c {
      var i :| 0 <= i < |r.failedCaseIds| && r.failedCaseIds[i] == c;
      assert ids[i] == id;
    }
  }

  /** The aggregate names exactly the failed cases and the errors of its records, each with runner and suite. */
  lemma {:induction false} FailuresNamed(records: seq<Record>, id: string)
    ensures id in AllIds(records) <==> exists r :: r in records && Names(id, r)
  {
    if records != [] {
      var init, last := records[..|records| - 1], records[|records| - 1];
      FailuresNamed(init, id);
      NamedByRecord(id, last);
      assert records == init + [last];
    }
  }

  lemma {:induction false} FailedIdIs(results: seq<CaseResult>, id: string)
    ensures id in FailedIdsOf(results) <==> exists c :: c in results && !c.passed && c.caseId == id
  {
    if results != [] {
      var init, last := results[..|results| - 1], results[|results| - 1];
      FailedIdIs(init, id);
      assert results == init + [last];
    }
  }

  // What a suite's record says: whose it is, how it went, and which of its cases failed.
  lemma RecordIs(run: SuiteRun, id: string)
    ensures var r := RecordOf(run);
            match run
            case Cases(runner, suiteId, report) =>
              && r.runner == runner && r.suiteId == suiteId && r.errorMessage == None
              && (r.status == Passed <==> report.passed == report.total) && r.status != Error
              && r.total == Some(report.total) && r.passed == Some(report.passed) && r.score == Some(report.score)
              && (id in r.failedCaseIds <==> exists c :: c in report.results && !c.passed && c.caseId == id)
            case Summary(suiteId, ok, score, failures) =>
              && r.runner == "monitor" && r.suiteId == suiteId && (r.status == Passed <==> ok) && r.status != Error
              && (id in r.failedCaseIds <==> !ok && id == suiteId) && r.score == Some(score)
            case Crash(runner, suiteId, message) =>
              && r.runner == runner && r.suiteId == suiteId && r.status == Error && r.errorMessage == Some(message)
              && r.failedCaseIds == [] && r.total == None && r.passed == None
  {
    if run.Cases? {
      var results := run.report.results;
      var plain := PlainAll(run.runner, results);
      FailedIdIs(plain, id);
      if c :| c in results && !c.passed && c.caseId == id {
        var i :| 0 <= i < |results| && results[i] == c;
        assert plain[i] in plain;
      }
      if c :| c in plain && !c.passed && c.caseId == id {
        var i :| 0 <= i < |plain| && plain[i] == c;
        assert results[i] in results;
      }
    }
  }

  lemma {:induction false} RaisedCases(r: Record, results: seq<CaseResult>)
    ensures forall c :: c in FailedCases(r, results) ==>
              && !c.passed && c.failures != []
              && exists x :: x in results && !x.passed && c.caseId == r.suiteId + ":" + x.caseId
  {
    if results != [] {
      var init, last := results[..|results| - 1], results[|results| - 1];
      RaisedCases(r, init);
      assert results == init + [last];
      forall c | c in FailedCases(r, init)
        ensures exists x :: x in results && !x.passed && c.caseId == r.suiteId + ":" + x.caseId
      {
        var x :| x in init && !x.passed && c.caseId == r.suiteId + ":" + x.caseId;
        assert x in results;
      }
      assert last in results;
    }
  }

  /** Every case the aggregate lists has failed, says why, and is named by its suite. */
  lemma {:induction false} CasesSayWhy(records: seq<Record>, c: CaseResult)
    requires c in AllCases(records)
    ensures !c.passed && c.failures != []
    ensures exists r, id :: r in records && c.caseId == r.suiteId + ":" + id
  {
    var init, last := records[..|records| - 1], records[|records| - 1];
    assert records == init + [last];
    if c in AllCases(init) {
      CasesSayWhy(init, c);
      var r, id :| r in init && c.caseId == r.suiteId + ":" + id;
      assert r in records;
    } else {
      RaisedCases(last, last.caseResults);
      if c in FailedCases(last, last.caseResults) {
        var x :| x in last.caseResults && !x.passed && c.caseId == last.suiteId + ":" + x.caseId;
      } else {
        assert c.caseId == last.suiteId + ":" + "runner_error";
      }
      assert last in records;
    }
  }
}

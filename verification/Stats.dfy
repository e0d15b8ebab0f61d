// The aggregate statistics: counters updated under a lock, their snapshot, and
// the per-route lines of the metrics page.
module Stats {
  import opened Models
  import opened StableSort

  // ---- totals of per-route counts ---------------------------------------

  type Counts = map<string, nat>

  ghost function Total(m: Counts): nat {
    if m == map[] then 0
    else
      var k :| k in m;
      m[k] + Total(m - {k})
  }

  lemma {:induction false} TotalWithout(m: Counts, k: string)
    requires k in m
    ensures Total(m) == m[k] + Total(m - {k})
    decreases |m|
  {
    var j :| j in m && Total(m) == m[j] + Total(m - {j});
    if j != k {
      TotalWithout(m - {j}, k);
      TotalWithout(m - {k}, j);
      assert m - {j} - {k} == m - {k} - {j};
    }
  }

  function Get(m: Counts, k: string): nat {
    if k in m then m[k] else 0
  }

  lemma TotalAfterIncrement(m: Counts, k: string)
    ensures Total(m[k := Get(m, k) + 1]) == Total(m) + 1
  {
    var n := m[k := Get(m, k) + 1];
    TotalWithout(n, k);
    if k in m {
      TotalWithout(m, k);
      assert n - {k} == m - {k};
    } else {
      assert n - {k} == m;
    }
  }

  // ---- the counters and what each record call does ------------------------

  datatype Counters = Counters(
    totalQueries: nat, successfulQueries: nat, partiallyFailed: nat, fullyFailed: nat,
    targetCount: nat, operationCount: nat, operationSuccesses: nat, operationFailures: nat, totalLatency: int,
    received: nat, decoded: nat, rejected: nat, matched: nat, unmatched: nat, queued: nat,
    forwarded: nat, failed: nat, retries: nat, forwardLatency: int,
    routeSuccesses: Counts, routeFailures: Counts)

  const ZERO := Counters(0, 0, 0, 0, 0, 0, 0, 0, 0, 0, 0, 0, 0, 0, 0, 0, 0, 0, 0, map[], map[])

  function AfterReceived(c: Counters): Counters { c.(received := c.received + 1) }
  function AfterDecoded(c: Counters): Counters { c.(decoded := c.decoded + 1, matched := c.matched + 1) }
  function AfterRejected(c: Counters): Counters { c.(rejected := c.rejected + 1) }
  function AfterUnmatched(c: Counters): Counters { c.(unmatched := c.unmatched + 1) }
  function AfterQueued(c: Counters): Counters { c.(queued := c.queued + 1) }
  function AfterRetry(c: Counters): Counters { c.(retries := c.retries + 1) }

  function AfterForwardSuccess(c: Counters, route: string, duration: int): Counters {
    c.(forwarded := c.forwarded + 1, forwardLatency := c.forwardLatency + duration,
       routeSuccesses := c.routeSuccesses[route := Get(c.routeSuccesses, route) + 1])
  }

  function AfterForwardFailure(c: Counters, route: string): Counters {
    c.(failed := c.failed + 1, routeFailures := c.routeFailures[route := Get(c.routeFailures, route) + 1])
  }

  // The operations with (ok) or without (not ok) the status "ok".
  function CountOps(ops: seq<OperationResult>, ok: bool): nat {
    if ops == [] then 0
    else CountOps(ops[..|ops| - 1], ok) + (if (ops[|ops| - 1].status == "ok") == ok then 1 else 0)
  }

  function CountAll(results: seq<TargetResult>, ok: bool): nat {
    if results == [] then 0
    else CountAll(results[..|results| - 1], ok) + CountOps(results[|results| - 1].operations, ok)
  }

  function OperationTotal(results: seq<TargetResult>): nat {
    if results == [] then 0
    else OperationTotal(results[..|results| - 1]) + |results[|results| - 1].operations|
  }

  function AfterLoad(c: Counters, targets: nat, duration: int): Counters {
    c.(totalQueries := c.totalQueries + 1, totalLatency := c.totalLatency + duration, targetCount := c.targetCount + targets)
  }

  function AfterOperations(c: Counters, operations: nat, good: nat, bad: nat): Counters {
    c.(operationCount := c.operationCount + operations,
       operationSuccesses := c.operationSuccesses + good,
       operationFailures := c.operationFailures + bad)
  }

  // A query without a failure is successful, one without a success but with
  // failures is fully failed, and any other is partially failed.
  function AfterClassified(c: Counters, good: nat, bad: nat): Counters {
    if bad == 0 then c.(successfulQueries := c.successfulQueries + 1)
    else if good == 0 then c.(fullyFailed := c.fullyFailed + 1)
    else c.(partiallyFailed := c.partiallyFailed + 1)
  }

  function AfterQuery(c: Counters, results: seq<TargetResult>, duration: int): Counters {
    var good, bad := CountAll(results, true), CountAll(results, false);
    AfterClassified(AfterOperations(AfterLoad(c, |results|, duration), OperationTotal(results), good, bad), good, bad)
  }

  // What every snapshot satisfies.
  ghost predicate Consistent(c: Counters) {
    && c.totalQueries == c.successfulQueries + c.partiallyFailed + c.fullyFailed
    && c.operationCount == c.operationSuccesses + c.operationFailures
    && c.matched == c.decoded
    && c.forwarded == Total(c.routeSuccesses)
    && c.failed == Total(c.routeFailures)
  }

  lemma {:induction false} OpsSplitByStatus(ops: seq<OperationResult>)
    ensures |ops| == CountOps(ops, true) + CountOps(ops, false)
  {
    if ops == [] {
    } else {
      OpsSplitByStatus(ops[..|ops| - 1]);
    }
  }

  lemma {:induction false} ResultsSplitByStatus(results: seq<TargetResult>)
    ensures OperationTotal(results) == CountAll(results, true) + CountAll(results, false)
  {
    if results == [] {
    } else {
      ResultsSplitByStatus(results[..|results| - 1]);
      OpsSplitByStatus(results[|results| - 1].operations);
    }
  }

  lemma ForwardKeepsConsistent(c: Counters, route: string, duration: int)
    requires Consistent(c)
    ensures Consistent(AfterForwardSuccess(c, route, duration)) && Consistent(AfterForwardFailure(c, route))
  {
    TotalAfterIncrement(c.routeSuccesses, route);
    TotalAfterIncrement(c.routeFailures, route);
  }

  lemma QueryKeepsConsistent(c: Counters, results: seq<TargetResult>, duration: int)
    requires Consistent(c)
    ensures Consistent(AfterQuery(c, results, duration))
  {
    ResultsSplitByStatus(results);
  }

  // One call of a record method; the lock makes each of them a single step.
  datatype Call =
    | Query(results: seq<TargetResult>, duration: int)
    | Received | Decoded | Rejected | Unmatched | Queued | Retried
    | Succeeded(route: string, duration: int)
    | Failed(route: string)

  function AfterCall(c: Counters, call: Call): Counters {
    match call
    case Query(results, duration) => AfterQuery(c, results, duration)
    case Received => AfterReceived(c)
    case Decoded => AfterDecoded(c)
    case Rejected => AfterRejected(c)
    case Unmatched => AfterUnmatched(c)
    case Queued => AfterQueued(c)
    case Retried => AfterRetry(c)
    case Succeeded(route, duration) => AfterForwardSuccess(c, route, duration)
    case Failed(route) => AfterForwardFailure(c, route)
  }

  function AfterCalls(calls: seq<Call>): Counters {
    if calls == [] then ZERO else AfterCall(AfterCalls(calls[..|calls| - 1]), calls[|calls| - 1])
  }

  function CallsFor(calls: seq<Call>, route: string, good: bool): nat {
    if calls == [] then 0
    else
      var last := calls[|calls| - 1];
      CallsFor(calls[..|calls| - 1], route, good)
        + (if (good && last.Succeeded? && last.route == route) || (!good && last == Failed(route)) then 1 else 0)
  }

  // Every record call keeps the counters consistent.
  lemma EveryRecordKeepsConsistent(c: Counters, call: Call)
    requires Consistent(c)
    ensures Consistent(AfterCall(c, call))
  {
    match call
    case Query(results, duration) => QueryKeepsConsistent(c, results, duration);
    case Succeeded(route, duration) => ForwardKeepsConsistent(c, route, duration);
    case Failed(route) => ForwardKeepsConsistent(c, route, 0);
    case _ =>
  }

  lemma RouteCountsAfterCall(c: Counters, call: Call, route: string)
    ensures Get(AfterCall(c, call).routeSuccesses, route)
            == Get(c.routeSuccesses, route) + if call.Succeeded? && call.route == route then 1 else 0
    ensures Get(AfterCall(c, call).routeFailures, route) == Get(c.routeFailures, route) + if call == Failed(route) then 1 else 0
  {}

  lemma CallsGrow(front: seq<Call>, last: Call, route: string)
    ensures AfterCalls(front + [last]) == AfterCall(AfterCalls(front), last)
    ensures CallsFor(front + [last], route, true) == CallsFor(front, route, true) + if last.Succeeded? && last.route == route then 1 else 0
    ensures CallsFor(front + [last], route, false) == CallsFor(front, route, false) + if last == Failed(route) then 1 else 0
  {
    assert (front + [last])[..|front|] == front;
  }

  // Whatever calls were made, in whatever order, the counters are consistent,
  // and the per-route counts are the calls made for that route.
  lemma {:induction false} EverySnapshotIsConsistent(calls: seq<Call>, route: string)
    ensures Consistent(AfterCalls(calls))
    ensures Get(AfterCalls(calls).routeSuccesses, route) == CallsFor(calls, route, true)
    ensures Get(AfterCalls(calls).routeFailures, route) == CallsFor(calls, route, false)
  {
    if calls == [] {
    } else {
      var front, last := calls[..|calls| - 1], calls[|calls| - 1];
      EverySnapshotIsConsistent(front, route);
      assert calls == front + [last];
      CallsGrow(front, last, route);
      EveryRecordKeepsConsistent(AfterCalls(front), last);
      RouteCountsAfterCall(AfterCalls(front), last, route);
    }
  }

  // ---- what a snapshot says of the queries --------------------------------------

  predicate AllOk(results: seq<TargetResult>) {
    forall i, j :: 0 <= i < |results| && 0 <= j < |results[i].operations| ==> results[i].operations[j].status == "ok"
  }

  predicate NoneOk(results: seq<TargetResult>) {
    forall i, j :: 0 <= i < |results| && 0 <= j < |results[i].operations| ==> results[i].operations[j].status != "ok"
  }

  predicate SomeOfEach(results: seq<TargetResult>) {
    !AllOk(results) && !NoneOk(results)
  }

  predicate NoneOkButSome(results: seq<TargetResult>) {
    NoneOk(results) && !AllOk(results)
  }

  predicate IsOk(r: OperationResult) {
    r.status == "ok"
  }

  lemma OneMoreOp(front: seq<OperationResult>, last: OperationResult, ok: bool)
    ensures CountOps(front + [last], ok) == CountOps(front, ok) + (if IsOk(last) == ok then 1 else 0)
  {
    assert (front + [last])[..|front|] == front;
  }

  lemma {:induction false} CountOpsMeans(ops: seq<OperationResult>, ok: bool)
    ensures CountOps(ops, ok) == 0 <==> forall j :: 0 <= j < |ops| ==> IsOk(ops[j]) != ok
  {
    if ops == [] {
    } else {
      var front, last := ops[..|ops| - 1], ops[|ops| - 1];
      assert ops == front + [last];
      OneMoreOp(front, last, ok);
      CountOpsMeans(front, ok);
      assert forall j :: 0 <= j < |front| ==> ops[j] == front[j];
    }
  }

  lemma {:induction false} CountAllMeans(results: seq<TargetResult>, ok: bool)
    ensures CountAll(results, ok) == 0 <==>
              forall i, j :: 0 <= i < |results| && 0 <= j < |results[i].operations| ==> IsOk(results[i].operations[j]) != ok
  {
    if results == [] {
    } else {
      var front, last := results[..|results| - 1], results[|results| - 1];
      CountAllMeans(front, ok);
      CountOpsMeans(last.operations, ok);
      assert results == front + [last];
      assert forall i :: 0 <= i < |front| ==> results[i] == front[i];
    }
  }

  // The queries among the calls whose results are as p says.
  function QueriesThat(calls: seq<Call>, p: seq<TargetResult> -> bool): nat {
    if calls == [] then 0
    else
      var last := calls[|calls| - 1];
      QueriesThat(calls[..|calls| - 1], p) + (if last.Query? && p(last.results) then 1 else 0)
  }

  function TotalOver(calls: seq<Call>, f: Call -> int): int {
    if calls == [] then 0 else TotalOver(calls[..|calls| - 1], f) + f(calls[|calls| - 1])
  }

  function TargetsIn(call: Call): int { if call.Query? then |call.results| else 0 }
  function QueryTime(call: Call): int { if call.Query? then call.duration else 0 }
  function ForwardTime(call: Call): int { if call.Succeeded? then call.duration else 0 }

  lemma QueryIsClassified(c: Counters, results: seq<TargetResult>, duration: int)
    ensures var d := AfterQuery(c, results, duration);
            && d.successfulQueries == c.successfulQueries + (if AllOk(results) then 1 else 0)
            && d.fullyFailed == c.fullyFailed + (if NoneOkButSome(results) then 1 else 0)
            && d.partiallyFailed == c.partiallyFailed + (if SomeOfEach(results) then 1 else 0)
            && d.targetCount == c.targetCount + |results| && d.totalLatency == c.totalLatency + duration
            && d.forwardLatency == c.forwardLatency
  {
    CountAllMeans(results, true);
    CountAllMeans(results, false);
    assert forall i, j :: 0 <= i < |results| && 0 <= j < |results[i].operations| ==> (IsOk(results[i].operations[j]) <==> results[i].operations[j].status == "ok");
  }

  ghost predicate QueriesCounted(c: Counters, calls: seq<Call>) {
    && c.successfulQueries == QueriesThat(calls, AllOk)
    && c.fullyFailed == QueriesThat(calls, NoneOkButSome)
    && c.partiallyFailed == QueriesThat(calls, SomeOfEach)
    && c.targetCount == TotalOver(calls, TargetsIn)
    && c.totalLatency == TotalOver(calls, QueryTime)
    && c.forwardLatency == TotalOver(calls, ForwardTime)
  }

  lemma QueriesCountedStep(c: Counters, front: seq<Call>, last: Call)
    requires QueriesCounted(c, front)
    ensures QueriesCounted(AfterCall(c, last), front + [last])
  {
    assert (front + [last])[..|front|] == front;
    if last.Query? { QueryIsClassified(c, last.results, last.duration); }
  }

  // A query counts as successful when every operation is ok, as failed when none
  // is (and there is one), and else as partially failed; targets and latencies
  // are the sums over the calls.
  lemma {:induction false} QueriesAreClassified(calls: seq<Call>)
    ensures QueriesCounted(AfterCalls(calls), calls)
  {
    if calls == [] {
    } else {
      var front, last := calls[..|calls| - 1], calls[|calls| - 1];
      QueriesAreClassified(front);
      QueriesCountedStep(AfterCalls(front), front, last);
      assert calls == front + [last];
    }
  }

  // ---- the lock-protected object ------------------------------------------

  // Visits the keys in whatever order the map hands them out.
  method CopyCounts(m: Counts) returns (out: Counts)
    ensures out == m
  {
    out := map[];
    var todo := m.Keys;
    while todo != {}
      invariant todo <= m.Keys && out.Keys == m.Keys - todo
      invariant forall k :: k in out ==> out[k] == m[k]
      decreases |todo|
    {
      var k :| k in todo;
      out, todo := out[k := m[k]], todo - {k};
    }
  }

  class Stats {
    var totalQueries: nat
    var successfulQueries: nat
    var partiallyFailed: nat
    var fullyFailed: nat
    var targetCount: nat
    var operationCount: nat
    var operationSuccesses: nat
    var operationFailures: nat
    var totalLatency: int
    var received: nat
    var decoded: nat
    var rejected: nat
    var matched: nat
    var unmatched: nat
    var queued: nat
    var forwarded: nat
    var failed: nat
    var retries: nat
    var forwardLatency: int
    var routeSuccesses: Counts
    var routeFailures: Counts

    constructor ()
      ensures View() == ZERO
    {
      totalQueries, successfulQueries, partiallyFailed, fullyFailed := 0, 0, 0, 0;
      targetCount, operationCount, operationSuccesses, operationFailures, totalLatency := 0, 0, 0, 0, 0;
      received, decoded, rejected, matched, unmatched, queued := 0, 0, 0, 0, 0, 0;
      forwarded, failed, retries, forwardLatency := 0, 0, 0, 0;
      routeSuccesses, routeFailures := map[], map[];
    }

    function View(): Counters
      reads this
    {
      Counters(totalQueries, successfulQueries, partiallyFailed, fullyFailed,
               targetCount, operationCount, operationSuccesses, operationFailures, totalLatency,
               received, decoded, rejected, matched, unmatched, queued,
               forwarded, failed, retries, forwardLatency, routeSuccesses, routeFailures)
    }

    // Counts the operations of one query that have the status "ok", and the others.
    static method Tally(results: seq<TargetResult>) returns (successes: nat, failures: nat, operations: nat)
      ensures successes == CountAll(results, true) && failures == CountAll(results, false)
      ensures operations == OperationTotal(results)
    {
      successes, failures, operations := 0, 0, 0;
      for i := 0 to |results|
        invariant successes == CountAll(results[..i], true) && failures == CountAll(results[..i], false)
        invariant operations == OperationTotal(results[..i])
      {
        assert results[..i + 1][..i] == results[..i];
        var ops := results[i].operations;
        operations := operations + |ops|;
        ghost var s, f := successes, failures;
        for j := 0 to |ops|
          invariant successes == s + CountOps(ops[..j], true) && failures == f + CountOps(ops[..j], false)
        {
          assert ops[..j + 1][..j] == ops[..j];
          if ops[j].status == "ok" {
            successes := successes + 1;
          } else {
            failures := failures + 1;
          }
        }
        assert ops[..|ops|] == ops;
      }
      assert results[..|results|] == results;
    }

    method AddLoad(targets: nat, duration: int)
      modifies this`totalQueries, this`totalLatency, this`targetCount
      ensures View() == AfterLoad(old(View()), targets, duration)
    {
      totalQueries := totalQueries + 1;
      totalLatency := totalLatency + duration;
      targetCount := targetCount + targets;
    }

    method AddOperations(operations: nat, good: nat, bad: nat)
      modifies this`operationCount, this`operationSuccesses, this`operationFailures
      ensures View() == AfterOperations(old(View()), operations, good, bad)
    {
      operationCount := operationCount + operations;
      operationSuccesses := operationSuccesses + good;
      operationFailures := operationFailures + bad;
    }

    method Classify(good: nat, bad: nat)
      modifies this`successfulQueries, this`fullyFailed, this`partiallyFailed
      ensures View() == AfterClassified(old(View()), good, bad)
    {
      if bad == 0 {
        successfulQueries := successfulQueries + 1;
      } else if good == 0 {
        fullyFailed := fullyFailed + 1;
      } else {
        partiallyFailed := partiallyFailed + 1;
      }
    }

    method Record(results: seq<TargetResult>, duration: int)
      modifies this
      ensures View() == AfterQuery(old(View()), results, duration)
    {
      var successes, failures, operations := Tally(results);
      AddLoad(|results|, duration);
      AddOperations(operations, successes, failures);
      Classify(successes, failures);
    }

    method RecordTrapDecoded()
      modifies this`decoded, this`matched
      ensures View() == AfterDecoded(old(View()))
    {
      decoded := decoded + 1;
      matched := matched + 1;
    }

    method RecordTrapReceived()
      modifies this`received
      ensures View() == AfterReceived(old(View()))
    {
      received := received + 1;
    }

    method RecordTrapRejected()
      modifies this`rejected
      ensures View() == AfterRejected(old(View()))
    {
      rejected := rejected + 1;
    }

    method RecordTrapUnmatched()
      modifies this`unmatched
      ensures View() == AfterUnmatched(old(View()))
    {
      unmatched := unmatched + 1;
    }

    method RecordTrapQueued()
      modifies this`queued
      ensures View() == AfterQueued(old(View()))
    {
      queued := queued + 1;
    }

    method RecordTrapRetry()
      modifies this`retries
      ensures View() == AfterRetry(old(View())) && retries == old(retries) + 1
    {
      retries := retries + 1;
    }

    method RecordTrapForwardSuccess(route: string, duration: int)
      modifies this`forwarded, this`routeSuccesses, this`forwardLatency
      ensures View() == AfterForwardSuccess(old(View()), route, duration)
    {
      forwarded := forwarded + 1;
      routeSuccesses := routeSuccesses[route := Get(routeSuccesses, route) + 1];
      forwardLatency := forwardLatency + duration;
    }

    method RecordTrapForwardFailure(route: string)
      modifies this`failed, this`routeFailures
      ensures View() == AfterForwardFailure(old(View()), route)
    {
      failed := failed + 1;
      routeFailures := routeFailures[route := Get(routeFailures, route) + 1];
    }

    method Snapshot() returns (s: Counters)
      ensures s == View()
    {
      var good := CopyCounts(routeSuccesses);
      var bad := CopyCounts(routeFailures);
      s := View().(routeSuccesses := good, routeFailures := bad);
    }
  }

  // ---- the per-route lines of the metrics page -------------------------------

  // Byte order of UTF-8 text, which is code point order.
  predicate TextLess(a: string, b: string) {
    if b == "" then false
    else if a == "" then true
    else a[0] < b[0] || (a[0] == b[0] && TextLess(a[1..], b[1..]))
  }

  // a comes before b when it is a proper prefix, or smaller at the first difference.
  lemma {:induction false} TextLessMeans(a: string, b: string)
    ensures TextLess(a, b) <==>
              exists k :: 0 <= k <= |a| && k < |b| && a[..k] == b[..k] && (k == |a| || a[k] < b[k])
  {
    if a == "" || b == "" {
      assert b != "" ==> a[..0] == b[..0];
    } else {
      TextLessMeans(a[1..], b[1..]);
      if a[0] == b[0] && TextLess(a, b) {
        var k :| 0 <= k <= |a[1..]| && k < |b[1..]| && a[1..][..k] == b[1..][..k] && (k == |a[1..]| || a[1..][k] < b[1..][k]);
        assert a[..k + 1] == [a[0]] + a[1..][..k] && b[..k + 1] == [b[0]] + b[1..][..k];
      } else if a[0] < b[0] {
        assert a[..0] == b[..0];
      }
      forall k | 0 <= k <= |a| && k < |b| && a[..k] == b[..k] && (k == |a| || a[k] < b[k]) ensures TextLess(a, b) {
        if k > 0 {
          assert a[0] == a[..k][0] && b[0] == b[..k][0];
          assert a[1..][..k - 1] == a[..k][1..] && b[1..][..k - 1] == b[..k][1..];
        }
      }
    }
  }

  lemma {:induction false} TextLessTrichotomy(a: string, b: string)
    ensures a == b <==> !TextLess(a, b) && !TextLess(b, a)
    ensures !(TextLess(a, b) && TextLess(b, a))
  {
    if a != "" && b != "" {
      TextLessTrichotomy(a[1..], b[1..]);
      assert a == [a[0]] + a[1..] && b == [b[0]] + b[1..];
    }
  }

  lemma {:induction false} TextLessTransitive(a: string, b: string, c: string)
    requires TextLess(a, b) && TextLess(b, c)
    ensures TextLess(a, c)
  {
    if a != "" && a[0] == b[0] && b[0] == c[0] { TextLessTransitive(a[1..], b[1..], c[1..]); }
  }

  lemma TextLessIsStrictWeakOrder()
    ensures StrictWeakOrder(TextLess)
  {
    forall x, y, z
      ensures !TextLess(x, x) && (TextLess(x, y) && TextLess(y, z) ==> TextLess(x, z))
      ensures TextLess(x, z) ==> TextLess(x, y) || TextLess(y, z)
    {
      TextLessTrichotomy(x, x);
      TextLessTrichotomy(x, y);
      TextLessTrichotomy(y, z);
      if TextLess(x, y) && TextLess(y, z) { TextLessTransitive(x, y, z); }
      if TextLess(x, z) && TextLess(y, x) { TextLessTransitive(y, x, z); }
    }
  }

  // Strictly ascending, so without duplicates.
  ghost predicate Ascending(s: seq<string>) {
    forall i, j :: 0 <= i < j < |s| ==> TextLess(s[i], s[j])
  }

  ghost predicate Lists(s: seq<string>, keys: set<string>) {
    Ascending(s) && forall k :: k in s <==> k in keys
  }

  ghost predicate Distinct(s: seq<string>) {
    forall i, j :: 0 <= i < j < |s| ==> s[i] != s[j]
  }

  // The keys of both maps, in whatever order the set hands them out.
  method CollectKeys(a: Counts, b: Counts) returns (keys: seq<string>)
    ensures Distinct(keys) && forall k :: k in keys <==> k in a.Keys + b.Keys
  {
    var seen := a.Keys + b.Keys;
    keys := [];
    while seen != {}
      invariant seen <= a.Keys + b.Keys
      invariant forall k :: k in keys <==> k in a.Keys + b.Keys && k !in seen
      invariant Distinct(keys)
      decreases |seen|
    {
      var k :| k in seen;
      keys, seen := keys + [k], seen - {k};
    }
  }

  lemma {:induction false} DistinctIsUnitMultiset(s: seq<string>)
    requires Distinct(s)
    ensures forall k :: multiset(s)[k] <= 1
  {
    if s == [] {
    } else {
      DistinctIsUnitMultiset(s[1..]);
      assert s == [s[0]] + s[1..];
      assert s[0] !in s[1..];
    }
  }

  lemma UnitMultisetIsDistinct(s: seq<string>)
    requires forall k :: multiset(s)[k] <= 1
    ensures Distinct(s)
  {
    forall i, j | 0 <= i < j < |s| ensures s[i] != s[j] {
      assert multiset(s)[s[i]] <= 1;
      assert s == s[..j] + s[j..];
      assert s[..j][i] == s[i] && s[j..][0] == s[j];
      assert multiset(s) == multiset(s[..j]) + multiset(s[j..]);
      assert multiset(s[..j])[s[i]] >= 1 && multiset(s[j..])[s[j]] >= 1;
    }
  }

  lemma SortedKeysAscend(keys: seq<string>, out: seq<string>)
    requires out == Sort(TextLess, keys) && Distinct(keys)
    ensures Ascending(out)
    ensures forall k :: k in out <==> k in keys
  {
    TextLessIsStrictWeakOrder();
    SortIsStable(TextLess, keys);
    assert forall k :: k in out <==> k in multiset(out);
    assert forall k :: k in keys <==> k in multiset(keys);
    DistinctIsUnitMultiset(keys);
    UnitMultisetIsDistinct(out);
    forall i, j | 0 <= i < j < |out| ensures TextLess(out[i], out[j]) {
      TextLessTrichotomy(out[i], out[j]);
    }
  }

  // Collecting the keys in any order and sorting lists each key once, ascending.
  method MergeRouteKeys(a: Counts, b: Counts) returns (out: seq<string>)
    ensures Lists(out, a.Keys + b.Keys)
  {
    var keys := CollectKeys(a, b);
    var arr := new string[|keys|](i requires 0 <= i < |keys| => keys[i]);
    assert arr[..] == keys;
    SortInPlace(arr, TextLess);
    out := arr[..];
    SortedKeysAscend(keys, out);
  }

  lemma EmptyListing(s: seq<string>, keys: set<string>)
    requires Lists(s, keys)
    ensures s == [] <==> keys == {}
  {
    if s != [] { assert s[0] in keys; }
    if keys != {} {
      var k :| k in keys;
      assert k in s;
    }
  }

  lemma AscendingIsDistinct(s: seq<string>)
    requires Ascending(s)
    ensures Distinct(s)
  {
    forall i, j | 0 <= i < j < |s| ensures s[i] != s[j] {
      TextLessTrichotomy(s[i], s[j]);
    }
  }

  lemma TailLists(s: seq<string>, keys: set<string>)
    requires s != [] && Lists(s, keys)
    ensures Lists(s[1..], keys - {s[0]})
  {
    AscendingIsDistinct(s);
    assert s == [s[0]] + s[1..];
    assert s[0] !in s[1..];
  }

  // There is only one such listing, so the page does not depend on map order.
  lemma {:induction false} ListingIsUnique(s: seq<string>, t: seq<string>, keys: set<string>)
    requires Lists(s, keys) && Lists(t, keys)
    ensures s == t
  {
    EmptyListing(s, keys);
    EmptyListing(t, keys);
    if s == [] {
    } else {
      assert s[0] in t && t[0] in s;
      TextLessTrichotomy(s[0], t[0]);
      TailLists(s, keys);
      TailLists(t, keys);
      ListingIsUnique(s[1..], t[1..], keys - {s[0]});
    }
  }

  datatype RouteLine = RouteLine(route: string, outcome: string, count: nat)

  function LinesFor(routes: seq<string>, good: Counts, bad: Counts): seq<RouteLine> {
    if routes == [] then []
    else LinesFor(routes[..|routes| - 1], good, bad)
         + [RouteLine(routes[|routes| - 1], "success", Get(good, routes[|routes| - 1])),
            RouteLine(routes[|routes| - 1], "failure", Get(bad, routes[|routes| - 1]))]
  }

  function SumOutcome(lines: seq<RouteLine>, outcome: string): nat {
    if lines == [] then 0
    else SumOutcome(lines[..|lines| - 1], outcome) + (if lines[|lines| - 1].outcome == outcome then lines[|lines| - 1].count else 0)
  }

  lemma LinesGrow(routes: seq<string>, i: nat, good: Counts, bad: Counts)
    requires i < |routes|
    ensures LinesFor(routes[..i + 1], good, bad) == LinesFor(routes[..i], good, bad)
              + [RouteLine(routes[i], "success", Get(good, routes[i])), RouteLine(routes[i], "failure", Get(bad, routes[i]))]
  {
    assert routes[..i + 1][..i] == routes[..i];
  }

  // Two lines a route: its successes, then its failures, 0 where it has none.
  lemma {:induction false} LinesAt(routes: seq<string>, good: Counts, bad: Counts)
    ensures |LinesFor(routes, good, bad)| == 2 * |routes|
    ensures forall i :: 0 <= i < |routes| ==>
              && LinesFor(routes, good, bad)[2 * i] == RouteLine(routes[i], "success", if routes[i] in good then good[routes[i]] else 0)
              && LinesFor(routes, good, bad)[2 * i + 1] == RouteLine(routes[i], "failure", if routes[i] in bad then bad[routes[i]] else 0)
  {
    if routes == [] {
    } else {
      LinesAt(routes[..|routes| - 1], good, bad);
    }
  }

  method RouteLines(s: Counters) returns (routes: seq<string>, lines: seq<RouteLine>)
    ensures Lists(routes, s.routeSuccesses.Keys + s.routeFailures.Keys)
    ensures lines == LinesFor(routes, s.routeSuccesses, s.routeFailures)
  {
    routes := MergeRouteKeys(s.routeSuccesses, s.routeFailures);
    lines := [];
    var i := 0;
    while i < |routes|
      invariant i <= |routes| && lines == LinesFor(routes[..i], s.routeSuccesses, s.routeFailures)
    {
      var route := routes[i];
      LinesGrow(routes, i, s.routeSuccesses, s.routeFailures);
      lines := lines + [RouteLine(route, "success", Get(s.routeSuccesses, route)),
                        RouteLine(route, "failure", Get(s.routeFailures, route))];
      i := i + 1;
    }
    assert routes[..i] == routes;
  }

  // The total over the keys of m that are listed.
  function ListedSum(routes: seq<string>, m: Counts): nat {
    if routes == [] then 0 else ListedSum(routes[..|routes| - 1], m) + Get(m, routes[|routes| - 1])
  }

  lemma {:induction false} LinesAddUp(routes: seq<string>, good: Counts, bad: Counts)
    ensures SumOutcome(LinesFor(routes, good, bad), "success") == ListedSum(routes, good)
    ensures SumOutcome(LinesFor(routes, good, bad), "failure") == ListedSum(routes, bad)
  {
    if routes == [] {
    } else {
      var front := LinesFor(routes[..|routes| - 1], good, bad);
      var last := routes[|routes| - 1];
      LinesAddUp(routes[..|routes| - 1], good, bad);
      var a := front + [RouteLine(last, "success", Get(good, last))];
      var b := a + [RouteLine(last, "failure", Get(bad, last))];
      assert b == LinesFor(routes, good, bad);
      assert a[..|a| - 1] == front && b[..|b| - 1] == a;
    }
  }

  lemma {:induction false} ListedSumIgnores(routes: seq<string>, m: Counts, k: string)
    requires k !in routes
    ensures ListedSum(routes, m) == ListedSum(routes, m - {k})
  {
    if routes == [] {
    } else {
      ListedSumIgnores(routes[..|routes| - 1], m, k);
    }
  }

  lemma RemoveKey(m: Counts, k: string)
    ensures Total(m) == Get(m, k) + Total(m - {k})
  {
    if k in m { TotalWithout(m, k); } else { assert m - {k} == m; }
  }

  lemma FrontLists(front: seq<string>, last: string, m: Counts)
    requires Ascending(front + [last]) && forall k :: k in m ==> k in front + [last]
    ensures Ascending(front) && last !in front && forall k :: k in m - {last} ==> k in front
  {
    AscendingIsDistinct(front + [last]);
    assert forall i :: 0 <= i < |front| ==> (front + [last])[i] == front[i];
    assert (front + [last])[|front|] == last;
  }

  lemma {:induction false} ListedTotal(routes: seq<string>, m: Counts)
    requires Ascending(routes) && forall k :: k in m ==> k in routes
    ensures ListedSum(routes, m) == Total(m)
  {
    if routes == [] {
      assert m == map[];
    } else {
      var front, last := routes[..|routes| - 1], routes[|routes| - 1];
      assert routes == front + [last];
      FrontLists(front, last, m);
      ListedTotal(front, m - {last});
      ListedSumIgnores(front, m, last);
      RemoveKey(m, last);
    }
  }

  // The printed lines of a snapshot add up to its two forwarding totals.
  lemma PrintedLinesAddUp(s: Counters, routes: seq<string>)
    requires Consistent(s) && Lists(routes, s.routeSuccesses.Keys + s.routeFailures.Keys)
    ensures SumOutcome(LinesFor(routes, s.routeSuccesses, s.routeFailures), "success") == s.forwarded
    ensures SumOutcome(LinesFor(routes, s.routeSuccesses, s.routeFailures), "failure") == s.failed
  {
    LinesAddUp(routes, s.routeSuccesses, s.routeFailures);
    ListedTotal(routes, s.routeSuccesses);
    ListedTotal(routes, s.routeFailures);
  }
}

// The trap service and the shared statistics: the record calls that a run makes,
// mixed in any way with those of queries, leave exactly the counters that the
// service's history calls for, route by route.
module TrapAccounting {
  import opened TrapPacket
  import opened Retry
  import opened TrapPipeline
  import opened TrapInvariants
  import S = Stats

  // ---- the record calls of a run -----------------------------------------------

  // The route a job is counted under.
  function RouteOf(job: Job): string {
    job.payload.matchedCidr
  }

  function ReaderCall(r: ReaderPc): seq<S.Call> {
    match r
    case Counting(_) => [S.Received]
    case Rejecting(_) => [S.Rejected]
    case Missing(_) => [S.Unmatched]
    case Matching(_, _) => [S.Decoded]
    case Noticing(_) => [S.Queued]
    case Dropping(_, job) => [S.Failed(RouteOf(job))]
    case _ => []
  }

  // The record call that a step makes, if any; duration is what the clock says
  // the forwarding took.
  function CallBy(s: State, step: Step, duration: int): seq<S.Call>
    requires Enabled(s, step)
  {
    match step
    case R(Advance) => ReaderCall(s.reader)
    case W(i, NoteRetry) => [S.Retried]
    case W(i, RecordOutcome) =>
      [if s.workers[i].Succeeding? then S.Succeeded(RouteOf(s.workers[i].job), duration) else S.Failed(RouteOf(s.workers[i].job))]
    case _ => []
  }

  // All calls of a run; clock(k) is the duration measured k steps before its end.
  function CallsOf(e: Env, s: State, steps: seq<Step>, clock: nat -> int): seq<S.Call>
    requires CanRun(e, s, steps)
    decreases |steps|
  {
    if steps == [] then []
    else CallBy(s, steps[0], clock(|steps|)) + CallsOf(e, Do(e, s, steps[0]), steps[1..], clock)
  }

  // The calls that are not made by queries.
  function TrapCalls(calls: seq<S.Call>): seq<S.Call> {
    if calls == [] then []
    else TrapCalls(calls[..|calls| - 1]) + (if calls[|calls| - 1].Query? then [] else [calls[|calls| - 1]])
  }

  // ---- counters against history ------------------------------------------------

  function TallyOf(c: S.Counters): Tally {
    Tally(c.received, c.rejected, c.unmatched, c.decoded, c.queued, c.forwarded, c.failed, c.retries)
  }

  // The outcomes of one kind that the log holds for a route.
  function LoggedFor(log: seq<Entry>, o: Outcome, route: string): nat {
    if log == [] then 0
    else
      var last := log[|log| - 1];
      LoggedFor(log[..|log| - 1], o, route) + One(last.outcome == o && RouteOf(last.job) == route)
  }

  // The jobs of a route that met a full queue.
  function DroppedFor(offers: seq<Offer>, route: string): nat {
    if offers == [] then 0
    else
      var last := offers[|offers| - 1];
      DroppedFor(offers[..|offers| - 1], route) + One(!last.accepted && RouteOf(last.job) == route)
  }

  // A drop of the route that the reader has not recorded yet.
  function DropPending(r: ReaderPc, route: string): nat {
    One(r.Dropping? && RouteOf(r.job) == route)
  }

  ghost predicate RouteAccounts(c: S.Counters, r: ReaderPc, h: History, route: string) {
    && S.Get(c.routeSuccesses, route) == LoggedFor(h.log, Delivered, route)
    && S.Get(c.routeFailures, route) + DropPending(r, route) == LoggedFor(h.log, Failed, route) + DroppedFor(h.offers, route)
  }

  ghost predicate Accounts(c: S.Counters, s: State) {
    TallyOf(c) == s.n && forall route :: RouteAccounts(c, s.reader, s.h, route)
  }

  lemma HistoryGrows(h: History, x: Entry, o: Offer, route: string)
    ensures forall outcome :: LoggedFor(h.log + [x], outcome, route) == LoggedFor(h.log, outcome, route) + One(x.outcome == outcome && RouteOf(x.job) == route)
    ensures DroppedFor(h.offers + [o], route) == DroppedFor(h.offers, route) + One(!o.accepted && RouteOf(o.job) == route)
  {
    assert (h.log + [x])[..|h.log|] == h.log && (h.offers + [o])[..|h.offers|] == h.offers;
  }

  // ---- one step ------------------------------------------------------------------

  function AfterMaybe(c: S.Counters, calls: seq<S.Call>): S.Counters
    requires |calls| <= 1
  {
    if calls == [] then c else S.AfterCall(c, calls[0])
  }

  // What one call does to the tally.
  lemma TallyFollowsStatistics(c: S.Counters, route: string, duration: int)
    ensures var n := TallyOf(c);
            && TallyOf(S.AfterCall(c, S.Received)) == n.(received := n.received + 1)
            && TallyOf(S.AfterCall(c, S.Rejected)) == n.(rejected := n.rejected + 1)
            && TallyOf(S.AfterCall(c, S.Unmatched)) == n.(unmatched := n.unmatched + 1)
            && TallyOf(S.AfterCall(c, S.Decoded)) == n.(decoded := n.decoded + 1)
            && TallyOf(S.AfterCall(c, S.Queued)) == n.(queued := n.queued + 1)
            && TallyOf(S.AfterCall(c, S.Retried)) == n.(retries := n.retries + 1)
            && TallyOf(S.AfterCall(c, S.Succeeded(route, duration))) == n.(forwarded := n.forwarded + 1)
            && TallyOf(S.AfterCall(c, S.Failed(route))) == n.(failed := n.failed + 1)
  {}

  lemma StatisticsByReader(e: Env, c: S.Counters, s: State, a: ReadAction)
    requires CanRead(s, a) && TallyOf(c) == s.n
    ensures |CallBy(s, R(a), 0)| <= 1 && TallyOf(AfterMaybe(c, CallBy(s, R(a), 0))) == DoRead(e, s, a).n
  {
    TallyFollowsStatistics(c, if s.reader.Dropping? then RouteOf(s.reader.job) else "", 0);
  }

  lemma StatisticsByWorker(e: Env, c: S.Counters, s: State, i: nat, a: WorkAction, duration: int)
    requires Enabled(s, W(i, a)) && TallyOf(c) == s.n
    ensures |CallBy(s, W(i, a), duration)| <= 1
    ensures TallyOf(AfterMaybe(c, CallBy(s, W(i, a), duration))) == DoWork(e, s, i, a).n
  {
    TallyFollowsStatistics(c, if a == RecordOutcome then RouteOf(s.workers[i].job) else "", duration);
  }

  lemma TallyByStep(e: Env, c: S.Counters, s: State, step: Step, duration: int)
    requires Enabled(s, step) && TallyOf(c) == s.n
    ensures |CallBy(s, step, duration)| <= 1
    ensures TallyOf(AfterMaybe(c, CallBy(s, step, duration))) == Do(e, s, step).n
  {
    match step
    case R(a) => StatisticsByReader(e, c, s, a);
    case W(i, a) => StatisticsByWorker(e, c, s, i, a, duration);
    case C(a) =>
  }

  // What one call does to the counts of a route.
  lemma RouteByCall(c: S.Counters, calls: seq<S.Call>, route: string)
    requires |calls| <= 1
    ensures var d := AfterMaybe(c, calls);
            && S.Get(d.routeSuccesses, route) == S.Get(c.routeSuccesses, route) + One(calls != [] && calls[0].Succeeded? && calls[0].route == route)
            && S.Get(d.routeFailures, route) == S.Get(c.routeFailures, route) + One(calls == [S.Failed(route)])
  {}

  // The send pends a drop exactly when it meets a full queue.
  lemma SendIsOffered(e: Env, s: State, d: Datagram, job: Job)
    requires s.reader == Sending(d, job)
    ensures var t, o := Offering(e, s, d, job), Offer(job, |s.queue.items|, |s.queue.items| < e.capacity);
            && t.h.log == s.h.log
            && if s.queue.closed then t.reader == s.reader && t.h.offers == s.h.offers
               else t.reader == (if o.accepted then Noticing(d) else Dropping(d, job)) && t.h.offers == s.h.offers + [o]
  {}

  lemma RouteBySend(e: Env, c: S.Counters, s: State, d: Datagram, job: Job, route: string)
    requires s.reader == Sending(d, job) && RouteAccounts(c, s.reader, s.h, route)
    ensures var t := Offering(e, s, d, job); RouteAccounts(c, t.reader, t.h, route)
  {
    SendIsOffered(e, s, d, job);
    HistoryGrows(s.h, Entry(job, [], Failed), Offer(job, |s.queue.items|, |s.queue.items| < e.capacity), route);
  }

  // Any other step records the drop that pends, if one does.
  lemma DropByReader(e: Env, s: State, a: ReadAction, route: string)
    requires CanRead(s, a) && !s.reader.Sending?
    ensures var calls := CallBy(s, R(a), 0);
            && |calls| <= 1 && (calls != [] ==> !calls[0].Succeeded?)
            && DropPending(DoRead(e, s, a).reader, route) + One(calls == [S.Failed(route)]) == DropPending(s.reader, route)
  {}

  lemma RouteByReader(e: Env, c: S.Counters, s: State, a: ReadAction, route: string)
    requires CanRead(s, a) && RouteAccounts(c, s.reader, s.h, route)
    ensures |CallBy(s, R(a), 0)| <= 1
    ensures var t := DoRead(e, s, a);
            RouteAccounts(AfterMaybe(c, CallBy(s, R(a), 0)), t.reader, t.h, route)
  {
    if s.reader.Sending? {
      RouteBySend(e, c, s, s.reader.d, s.reader.job, route);
    } else {
      ReaderFrame(e, s, a);
      DropByReader(e, s, a, route);
      RouteByCall(c, CallBy(s, R(a), 0), route);
    }
  }

  // What a worker step adds to the log is what it records: an outcome, or
  // nothing for an abandonment.
  ghost predicate LogMatchesCall(calls: seq<S.Call>, log: seq<Entry>, log': seq<Entry>) {
    if log' == log then calls in {[], [S.Retried]}
    else
      && |log'| == |log| + 1 && log' == log + [log'[|log|]]
      && (var x := log'[|log|];
          match x.outcome
          case Delivered => |calls| == 1 && calls[0].Succeeded? && calls[0].route == RouteOf(x.job)
          case Failed => calls == [S.Failed(RouteOf(x.job))]
          case Abandoned => calls == [])
  }

  lemma CallByWorker(e: Env, s: State, i: nat, a: WorkAction, duration: int)
    requires Enabled(s, W(i, a))
    ensures var t := DoWork(e, s, i, a);
            t.reader == s.reader && t.h.offers == s.h.offers && LogMatchesCall(CallBy(s, W(i, a), duration), s.h.log, t.h.log)
  {}

  lemma RouteAfterMatch(c: S.Counters, calls: seq<S.Call>, r: ReaderPc, h: History, h': History, route: string)
    requires |calls| <= 1 && LogMatchesCall(calls, h.log, h'.log) && h'.offers == h.offers
    requires RouteAccounts(c, r, h, route)
    ensures RouteAccounts(AfterMaybe(c, calls), r, h', route)
  {
    RouteByCall(c, calls, route);
    if h'.log != h.log {
      var x := h'.log[|h.log|];
      HistoryGrows(h, x, Offer(x.job, 0, true), route);
    }
  }

  lemma RouteByWorker(e: Env, c: S.Counters, s: State, i: nat, a: WorkAction, duration: int, route: string)
    requires Enabled(s, W(i, a)) && RouteAccounts(c, s.reader, s.h, route)
    ensures |CallBy(s, W(i, a), duration)| <= 1
    ensures var t := DoWork(e, s, i, a);
            RouteAccounts(AfterMaybe(c, CallBy(s, W(i, a), duration)), t.reader, t.h, route)
  {
    CallByWorker(e, s, i, a, duration);
    RouteAfterMatch(c, CallBy(s, W(i, a), duration), s.reader, s.h, DoWork(e, s, i, a).h, route);
  }

  lemma AccountsStep(e: Env, c: S.Counters, s: State, step: Step, duration: int)
    requires Enabled(s, step) && Accounts(c, s)
    ensures |CallBy(s, step, duration)| <= 1
    ensures Accounts(AfterMaybe(c, CallBy(s, step, duration)), Do(e, s, step))
  {
    TallyByStep(e, c, s, step, duration);
    var d, t := AfterMaybe(c, CallBy(s, step, duration)), Do(e, s, step);
    forall route ensures RouteAccounts(d, t.reader, t.h, route) {
      assert RouteAccounts(c, s.reader, s.h, route);
      match step
      case R(a) => RouteByReader(e, c, s, a, route);
      case W(i, a) => RouteByWorker(e, c, s, i, a, duration, route);
      case C(a) =>
    }
  }

  // ---- whole runs -----------------------------------------------------------------

  lemma OneMoreCall(before: seq<S.Call>, calls: seq<S.Call>)
    requires |calls| <= 1
    ensures S.AfterCalls(before + calls) == AfterMaybe(S.AfterCalls(before), calls)
  {
    if calls == [] {
      assert before + calls == before;
    } else {
      assert (before + calls)[..|before|] == before;
    }
  }

  lemma AccountsOneStep(e: Env, before: seq<S.Call>, s: State, step: Step, duration: int)
    requires Enabled(s, step) && Accounts(S.AfterCalls(before), s)
    ensures Accounts(S.AfterCalls(before + CallBy(s, step, duration)), Do(e, s, step))
  {
    AccountsStep(e, S.AfterCalls(before), s, step, duration);
    OneMoreCall(before, CallBy(s, step, duration));
  }

  lemma CallsUnfold(e: Env, s: State, steps: seq<Step>, clock: nat -> int, before: seq<S.Call>)
    requires steps != [] && CanRun(e, s, steps)
    ensures before + CallsOf(e, s, steps, clock)
            == before + CallBy(s, steps[0], clock(|steps|)) + CallsOf(e, Do(e, s, steps[0]), steps[1..], clock)
  {}

  lemma {:induction false} AccountsRun(e: Env, s: State, steps: seq<Step>, clock: nat -> int, before: seq<S.Call>)
    requires CanRun(e, s, steps) && Accounts(S.AfterCalls(before), s)
    ensures Accounts(S.AfterCalls(before + CallsOf(e, s, steps, clock)), After(e, s, steps))
    decreases |steps|
  {
    if steps == [] {
      assert before + [] == before;
    } else {
      AccountsOneStep(e, before, s, steps[0], clock(|steps|));
      CallsUnfold(e, s, steps, clock, before);
      AccountsRun(e, Do(e, s, steps[0]), steps[1..], clock, before + CallBy(s, steps[0], clock(|steps|)));
    }
  }

  // Two counter states that agree on everything the traps touch.
  ghost predicate SameTraps(c: S.Counters, d: S.Counters) {
    TallyOf(c) == TallyOf(d) && c.routeSuccesses == d.routeSuccesses && c.routeFailures == d.routeFailures
  }

  lemma SameTrapsStep(c: S.Counters, d: S.Counters, call: S.Call)
    requires SameTraps(c, d)
    ensures if call.Query? then SameTraps(S.AfterCall(c, call), d) else SameTraps(S.AfterCall(c, call), S.AfterCall(d, call))
  {}

  lemma {:induction false} QueriesDoNotTouchTraps(calls: seq<S.Call>)
    ensures SameTraps(S.AfterCalls(calls), S.AfterCalls(TrapCalls(calls)))
  {
    if calls == [] {
    } else {
      var front, last := calls[..|calls| - 1], calls[|calls| - 1];
      QueriesDoNotTouchTraps(front);
      SameTrapsStep(S.AfterCalls(front), S.AfterCalls(TrapCalls(front)), last);
      OneMoreCall(TrapCalls(front), if last.Query? then [] else [last]);
    }
  }

  lemma StartAccounts(e: Env)
    ensures Accounts(S.AfterCalls([]), Start(e))
  {}

  // The shared counters c agree with the service's state and, for a route, with its history.
  ghost predicate Fits(c: S.Counters, s: State, route: string) {
    && S.Consistent(c) && TallyOf(c) == s.n && RouteAccounts(c, s.reader, s.h, route)
    && c.matched == s.n.decoded && S.Total(c.routeSuccesses) == s.n.forwarded && S.Total(c.routeFailures) == s.n.failed
  }

  lemma AccountsFit(c: S.Counters, d: S.Counters, s: State, route: string)
    requires S.Consistent(c) && SameTraps(c, d) && Accounts(d, s)
    ensures Fits(c, s, route)
  {
    assert RouteAccounts(d, s.reader, s.h, route);
  }

  // After every run, whatever the schedule and however queries are counted in
  // between: the statistics are consistent and hold the service's own tally, and
  // each route's successes are the deliveries logged for it, its failures the
  // failed forwards and the drops.
  lemma StatisticsFollowEveryRun(e: Env, steps: seq<Step>, clock: nat -> int, calls: seq<S.Call>, route: string)
    requires CanRun(e, Start(e), steps) && TrapCalls(calls) == CallsOf(e, Start(e), steps, clock)
    ensures Fits(S.AfterCalls(calls), After(e, Start(e), steps), route)
  {
    StartAccounts(e);
    AccountsRun(e, Start(e), steps, clock, []);
    assert [] + CallsOf(e, Start(e), steps, clock) == TrapCalls(calls);
    QueriesDoNotTouchTraps(calls);
    S.EverySnapshotIsConsistent(calls, route);
    AccountsFit(S.AfterCalls(calls), S.AfterCalls(TrapCalls(calls)), After(e, Start(e), steps), route);
  }

  lemma {:induction false} TrapCallsPrepend(front: seq<S.Call>, calls: seq<S.Call>)
    requires |front| <= 1 && (front != [] ==> !front[0].Query?)
    ensures TrapCalls(front + calls) == front + TrapCalls(calls)
  {
    if calls == [] {
      assert front + calls == front;
      assert front != [] ==> front[..0] == [];
    } else {
      TrapCallsPrepend(front, calls[..|calls| - 1]);
      assert (front + calls)[..|front + calls| - 1] == front + calls[..|calls| - 1];
    }
  }

  lemma StepsMakeTrapCalls(s: State, step: Step, duration: int)
    requires Enabled(s, step)
    ensures var calls := CallBy(s, step, duration); |calls| <= 1 && (calls != [] ==> !calls[0].Query?)
  {}

  lemma {:induction false} NoQueriesAmongTraps(e: Env, s: State, steps: seq<Step>, clock: nat -> int)
    requires CanRun(e, s, steps)
    ensures TrapCalls(CallsOf(e, s, steps, clock)) == CallsOf(e, s, steps, clock)
    decreases |steps|
  {
    if steps == [] {
    } else {
      var next := Do(e, s, steps[0]);
      NoQueriesAmongTraps(e, next, steps[1..], clock);
      StepsMakeTrapCalls(s, steps[0], clock(|steps|));
      TrapCallsPrepend(CallBy(s, steps[0], clock(|steps|)), CallsOf(e, next, steps[1..], clock));
    }
  }

  ghost predicate FitThroughout(calls: seq<S.Call>, s: State) {
    forall route :: Fits(S.AfterCalls(calls), s, route)
  }

  // So every reachable state of the service has statistics that fit it.
  lemma EveryReachableStateHasItsStatistics(e: Env, s: State)
    requires Reachable(e, s)
    ensures exists calls :: FitThroughout(calls, s)
  {
    var steps :| CanRun(e, Start(e), steps) && After(e, Start(e), steps) == s;
    var clock: nat -> int := (k: nat) => 0;
    var calls := CallsOf(e, Start(e), steps, clock);
    NoQueriesAmongTraps(e, Start(e), steps, clock);
    forall route ensures Fits(S.AfterCalls(calls), s, route) {
      StatisticsFollowEveryRun(e, steps, clock, calls, route);
    }
    assert FitThroughout(calls, s);
  }
}

// The query scheduler with a clock. Executing one target takes at most `bound`
// ticks; everything else, taking a free token above all, happens at once: time
// passes only while nothing can be done but to wait for an executor or a cancel.
module QueryTiming {
  import opened Counting
  import opened Models
  import opened Config
  import opened Executor
  import opened QueryScheduler

  // age[i] is how long target i has been inside Execute.
  datatype Timed = Timed(s: State, age: seq<nat>, now: nat)

  datatype Event = Tick | Happen(step: Step)

  function TimedStart(q: Query): Timed {
    Timed(Start(q), seq(q.Size(), i => 0), 0)
  }

  // Nothing is left to do but to wait.
  ghost predicate Quiet(q: Query, s: State) {
    !s.returned && forall step :: Enabled(q, s, step) ==> step == Cancel || (step.G? && step.act in {ReturnFromExecute, ReturnInterrupted})
  }

  ghost predicate CanTick(q: Query, bound: nat, t: Timed) {
    Quiet(q, t.s) && |t.age| == |t.s.pcs| && forall i :: 0 <= i < |t.age| ==> t.s.pcs[i] == Executing ==> t.age[i] < bound
  }

  ghost predicate CanOccur(q: Query, bound: nat, t: Timed, e: Event) {
    match e
    case Tick => CanTick(q, bound, t)
    case Happen(step) => Enabled(q, t.s, step) && |t.age| == |t.s.pcs|
  }

  ghost function Occur(q: Query, bound: nat, t: Timed, e: Event): Timed
    requires CanOccur(q, bound, t, e)
  {
    match e
    case Tick => Timed(t.s, seq(|t.age|, i requires 0 <= i < |t.age| => if t.s.pcs[i] == Executing then t.age[i] + 1 else t.age[i]), t.now + 1)
    case Happen(step) =>
      Timed(Do(q, t.s, step), if step.G? && step.act == Acquire then t.age[step.i := 0] else t.age, t.now)
  }

  ghost predicate CanPlay(q: Query, bound: nat, t: Timed, events: seq<Event>)
    decreases |events|
  {
    events == [] || (CanOccur(q, bound, t, events[0]) && CanPlay(q, bound, Occur(q, bound, t, events[0]), events[1..]))
  }

  ghost function Played(q: Query, bound: nat, t: Timed, events: seq<Event>): Timed
    requires CanPlay(q, bound, t, events)
    decreases |events|
  {
    if events == [] then t else Played(q, bound, Occur(q, bound, t, events[0]), events[1..])
  }

  ghost predicate TimedReachable(q: Query, bound: nat, t: Timed) {
    exists events :: CanPlay(q, bound, TimedStart(q), events) && Played(q, bound, TimedStart(q), events) == t
  }

  function CeilDiv(a: nat, b: nat): nat
    requires b > 0
  {
    (a + b - 1) / b
  }

  // ---- counting targets by progress ------------------------------------------

  function PastExecute(pc: Pc): nat {
    if pc in {Unborn, Selecting, Executing} then 0 else 1
  }

  // Targets that are finished, or have been executing for at least a ticks.
  function Advanced(pcs: seq<Pc>, age: seq<nat>, a: nat): nat
    requires |age| == |pcs|
    decreases |pcs|
  {
    var n := |pcs| - 1;
    if n < 0 then 0
    else Advanced(pcs[..n], age[..n], a) +
         PastExecute(pcs[n]) + (if pcs[n] == Executing && age[n] >= a then 1 else 0)
  }

  function Finished(t: Timed): nat {
    SumBy(t.s.pcs, PastExecute)
  }

  predicate IsAdvanced(pc: Pc, age: nat, a: nat) {
    PastExecute(pc) == 1 || (pc == Executing && age >= a)
  }

  lemma {:induction false} AdvancedGrows(pcs: seq<Pc>, age: seq<nat>, a: nat, pcs': seq<Pc>, age': seq<nat>, a': nat)
    requires |pcs| == |age| == |pcs'| == |age'|
    requires forall i :: 0 <= i < |pcs| ==> IsAdvanced(pcs[i], age[i], a) ==> IsAdvanced(pcs'[i], age'[i], a')
    ensures Advanced(pcs, age, a) <= Advanced(pcs', age', a')
    decreases |pcs|
  {
    var n := |pcs| - 1;
    if n >= 0 {
      assert IsAdvanced(pcs[n], age[n], a) ==> IsAdvanced(pcs'[n], age'[n], a');
      AdvancedGrows(pcs[..n], age[..n], a, pcs'[..n], age'[..n], a');
    }
  }

  // Advanced lies between the finished targets and the finished or executing
  // ones, and reaches either end when all ages do.
  lemma {:induction false} AdvancedBetween(pcs: seq<Pc>, age: seq<nat>, a: nat)
    requires |pcs| == |age|
    ensures (forall i :: 0 <= i < |pcs| ==> pcs[i] == Executing ==> age[i] < a) ==> Advanced(pcs, age, a) == SumBy(pcs, PastExecute)
    ensures (forall i :: 0 <= i < |pcs| ==> pcs[i] == Executing ==> age[i] >= a) ==>
              Advanced(pcs, age, a) == SumBy(pcs, PastExecute) + SumBy(pcs, InsideExecute)
    decreases |pcs|
  {
    var n := |pcs| - 1;
    if n >= 0 {
      AdvancedBetween(pcs[..n], age[..n], a);
    }
  }

  lemma {:induction false} FinishedOrExecuting(pcs: seq<Pc>)
    ensures SumBy(pcs, PastExecute) + SumBy(pcs, InsideExecute) <= |pcs|
    ensures (forall i :: 0 <= i < |pcs| ==> pcs[i] in {Executing, Exited}) ==>
              SumBy(pcs, PastExecute) + SumBy(pcs, InsideExecute) == |pcs|
  {
    if pcs == [] {
    } else {
      FinishedOrExecuting(pcs[..|pcs| - 1]);
    }
  }

  // ---- what waiting means ------------------------------------------------------

  lemma HolderSeesToken(q: Query, s: State, i: nat)
    requires Inv(q, s) && i < |s.pcs|
    ensures HoldsToken(s.pcs[i]) == 1 ==> s.tokens > 0
  {
    SumByZero(s.pcs, HoldsToken);
  }

  lemma QuietGoroutine(q: Query, s: State, i: nat)
    requires Inv(q, s) && Quiet(q, s) && s.spawned == |s.pcs| && i < |s.pcs|
    ensures s.pcs[i] in {Selecting, Executing, Exited}
    ensures s.pcs[i] == Selecting ==> s.tokens == q.parallel
  {
    assert SlotOk(q, i, s.pcs[i], s.results[i], s.writes[i], s.spawned, s.canceled);
    assert !Enabled(q, s, G(i, Acquire)) && !Enabled(q, s, G(i, WriteAnswer)) && !Enabled(q, s, G(i, WriteRefusal));
    assert !Enabled(q, s, G(i, WriteInterrupted)) && !Enabled(q, s, G(i, Release)) && !Enabled(q, s, G(i, Leave));
    HolderSeesToken(q, s, i);
  }

  lemma QuietCounts(pcs: seq<Pc>, tokens: nat, parallel: nat)
    requires forall i :: 0 <= i < |pcs| ==> pcs[i] in {Selecting, Executing, Exited} && (pcs[i] == Selecting ==> tokens == parallel)
    requires tokens == SumBy(pcs, HoldsToken) && parallel > 0 && SumBy(pcs, Alive) > 0
    ensures SumBy(pcs, InsideExecute) > 0
    ensures SumBy(pcs, PastExecute) + SumBy(pcs, InsideExecute) >= Min(|pcs|, SumBy(pcs, PastExecute) + parallel)
  {
    SumByGrows(pcs, HoldsToken, InsideExecute);
    if forall i :: 0 <= i < |pcs| ==> pcs[i] in {Executing, Exited} {
      FinishedOrExecuting(pcs);
      SumByGrows(pcs, Alive, InsideExecute);
    }
  }

  // While time passes somebody is executing, and as many are as there are tokens
  // unless nobody is left to start.
  lemma WaitingIsWorking(q: Query, s: State)
    requires Inv(q, s) && q.parallel > 0 && Quiet(q, s)
    ensures SumBy(s.pcs, InsideExecute) > 0
    ensures SumBy(s.pcs, PastExecute) + SumBy(s.pcs, InsideExecute) >= Min(|s.pcs|, SumBy(s.pcs, PastExecute) + q.parallel)
  {
    assert !Enabled(q, s, Spawn) && !Enabled(q, s, Return);
    forall i | 0 <= i < |s.pcs|
      ensures s.pcs[i] in {Selecting, Executing, Exited} && (s.pcs[i] == Selecting ==> s.tokens == q.parallel)
    {
      QuietGoroutine(q, s, i);
    }
    QuietCounts(s.pcs, s.tokens, q.parallel);
  }

  // ---- the schedule ---------------------------------------------------------------

  // Window k is the time after k * bound, up to (k + 1) * bound. At r ticks into
  // it, k batches are finished, and one more is finished or r ticks under way.
  ghost predicate InWindow(q: Query, bound: nat, t: Timed, k: nat, r: nat) {
    && |t.age| == |t.s.pcs| && t.now == k * bound + r && 1 <= r <= bound && k * q.parallel < q.Size()
    && Finished(t) >= Min(q.Size(), k * q.parallel)
    && Advanced(t.s.pcs, t.age, r) >= Min(q.Size(), (k + 1) * q.parallel)
  }

  ghost predicate OnTime(q: Query, bound: nat, t: Timed) {
    t.now == 0 || exists k, r :: InWindow(q, bound, t, k, r)
  }

  ghost predicate TimedInv(q: Query, bound: nat, t: Timed) {
    Inv(q, t.s) && |t.age| == q.Size() && OnTime(q, bound, t)
  }

  lemma TickStartsAll(q: Query, bound: nat, t: Timed)
    requires CanTick(q, bound, t)
    ensures var u := Occur(q, bound, t, Tick);
            && |u.age| == |u.s.pcs| && u.s == t.s && u.now == t.now + 1
            && Advanced(u.s.pcs, u.age, 1) == SumBy(t.s.pcs, PastExecute) + SumBy(t.s.pcs, InsideExecute)
  {
    var u := Occur(q, bound, t, Tick);
    AdvancedBetween(u.s.pcs, u.age, 1);
  }

  lemma Successor(a: nat, b: nat)
    ensures (a + 1) * b == a * b + b
  {}

  // A tick that starts window k.
  lemma NewWindow(q: Query, bound: nat, t: Timed, k: nat)
    requires q.parallel > 0 && bound > 0 && Inv(q, t.s) && |t.age| == q.Size() && CanTick(q, bound, t)
    requires t.now == k * bound && Finished(t) >= Min(q.Size(), k * q.parallel)
    ensures InWindow(q, bound, Occur(q, bound, t, Tick), k, 1)
  {
    WaitingIsWorking(q, t.s);
    FinishedOrExecuting(t.s.pcs);
    TickStartsAll(q, bound, t);
    Successor(k, q.parallel);
  }

  // At the end of a window nobody who was under way throughout is still executing.
  lemma WindowIsFull(q: Query, bound: nat, t: Timed, k: nat)
    requires |t.age| == |t.s.pcs| && InWindow(q, bound, t, k, bound) && CanTick(q, bound, t)
    ensures t.now == (k + 1) * bound && Finished(t) >= Min(q.Size(), (k + 1) * q.parallel)
  {
    AdvancedBetween(t.s.pcs, t.age, bound);
    Successor(k, bound);
  }

  lemma TickKeepsTime(q: Query, bound: nat, t: Timed)
    requires q.parallel > 0 && bound > 0 && TimedInv(q, bound, t) && CanTick(q, bound, t)
    ensures OnTime(q, bound, Occur(q, bound, t, Tick))
  {
    var u := Occur(q, bound, t, Tick);
    if t.now == 0 {
      NewWindow(q, bound, t, 0);
    } else {
      var k: nat, r: nat :| InWindow(q, bound, t, k, r);
      if r < bound {
        AdvancedGrows(t.s.pcs, t.age, r, u.s.pcs, u.age, r + 1);
        assert InWindow(q, bound, u, k, r + 1);
      } else {
        WindowIsFull(q, bound, t, k);
        NewWindow(q, bound, t, k + 1);
      }
    }
  }

  lemma StepKeepsAdvanced(q: Query, bound: nat, t: Timed, step: Step, i: nat, a: nat)
    requires TimedInv(q, bound, t) && CanOccur(q, bound, t, Happen(step)) && i < |t.age|
    requires IsAdvanced(t.s.pcs[i], t.age[i], a)
    ensures var u := Occur(q, bound, t, Happen(step));
            |u.s.pcs| == |u.age| == |t.age| && IsAdvanced(u.s.pcs[i], u.age[i], a)
  {
    if step.G? {
      CountsByAction(q, t.s, step.i, step.act);
    }
  }

  lemma AdvancedByStep(q: Query, bound: nat, t: Timed, step: Step, a: nat)
    requires TimedInv(q, bound, t) && CanOccur(q, bound, t, Happen(step))
    ensures var u := Occur(q, bound, t, Happen(step));
            |u.s.pcs| == |u.age| == |t.age| && Advanced(t.s.pcs, t.age, a) <= Advanced(u.s.pcs, u.age, a)
  {
    var u := Occur(q, bound, t, Happen(step));
    assert |u.s.pcs| == |u.age| == |t.age|;
    forall i | 0 <= i < |t.age| && IsAdvanced(t.s.pcs[i], t.age[i], a) ensures IsAdvanced(u.s.pcs[i], u.age[i], a) {
      StepKeepsAdvanced(q, bound, t, step, i, a);
    }
    AdvancedGrows(t.s.pcs, t.age, a, u.s.pcs, u.age, a);
  }

  lemma FinishedByStep(q: Query, s: State, step: Step)
    requires Inv(q, s) && Enabled(q, s, step)
    ensures SumBy(s.pcs, PastExecute) <= SumBy(Do(q, s, step).pcs, PastExecute)
  {
    if step.Spawn? {
      SumByMove(s.pcs, s.spawned, Selecting, PastExecute);
    } else if step.G? {
      CountsByAction(q, s, step.i, step.act);
      SumByMove(s.pcs, step.i, NextPc(step.act), PastExecute);
    }
  }

  lemma StepKeepsTime(q: Query, bound: nat, t: Timed, step: Step)
    requires TimedInv(q, bound, t) && CanOccur(q, bound, t, Happen(step))
    ensures OnTime(q, bound, Occur(q, bound, t, Happen(step)))
  {
    if t.now != 0 {
      var k: nat, r: nat :| InWindow(q, bound, t, k, r);
      AdvancedByStep(q, bound, t, step, r);
      FinishedByStep(q, t.s, step);
      assert InWindow(q, bound, Occur(q, bound, t, Happen(step)), k, r);
    }
  }

  lemma {:induction false} TimedInvRun(q: Query, bound: nat, t: Timed, events: seq<Event>)
    requires q.parallel > 0 && bound > 0 && CanPlay(q, bound, t, events) && TimedInv(q, bound, t)
    ensures TimedInv(q, bound, Played(q, bound, t, events))
    decreases |events|
  {
    if events == [] {
    } else {
      match events[0] {
        case Tick => TickKeepsTime(q, bound, t);
        case Happen(step) =>
          SlotsInvStep(q, t.s, step);
          CountsInvStep(q, t.s, step);
          StepKeepsTime(q, bound, t, step);
      }
      TimedInvRun(q, bound, Occur(q, bound, t, events[0]), events[1..]);
    }
  }

  lemma TimedReachableInv(q: Query, bound: nat, t: Timed)
    requires q.parallel > 0 && bound > 0 && TimedReachable(q, bound, t)
    ensures TimedInv(q, bound, t)
  {
    var events :| CanPlay(q, bound, TimedStart(q), events) && Played(q, bound, TimedStart(q), events) == t;
    StartInv(q);
    TimedInvRun(q, bound, TimedStart(q), events);
  }

  // ---- main results -----------------------------------------------------------------

  lemma Monotone(a: nat, b: nat, c: nat)
    requires a <= b
    ensures a * c <= b * c
  {}

  lemma OnlyAtTheEnd(k: nat, r: nat, m: nat, bound: nat)
    requires 1 <= r <= bound && m > k && m * bound <= k * bound + r
    ensures m == k + 1 && r == bound && m * bound == k * bound + r
  {
    Successor(k, bound);
    if m > k + 1 {
      Successor(k + 1, bound);
      Monotone(k + 2, m, bound);
    }
  }

  // By the time m executions could have followed one another, m full batches are
  // finished: whenever time is about to pass m * bound, or has passed it.
  lemma BatchesFinishOnTime(q: Query, bound: nat, t: Timed, m: nat)
    requires q.parallel > 0 && bound > 0 && TimedReachable(q, bound, t)
    requires m * bound < t.now || (m * bound == t.now && CanTick(q, bound, t))
    ensures Finished(t) >= Min(q.Size(), m * q.parallel)
  {
    TimedReachableInv(q, bound, t);
    if t.now == 0 {
      assert m == 0 by { if m > 0 { Monotone(1, m, bound); } }
    } else {
      var k: nat, r: nat :| InWindow(q, bound, t, k, r);
      if m <= k {
        Monotone(m, k, q.parallel);
      } else {
        OnlyAtTheEnd(k, r, m, bound);
        WindowIsFull(q, bound, t, k);
      }
    }
  }

  lemma CeilIsAbove(k: nat, n: nat, p: nat)
    requires p > 0 && k * p < n
    ensures k < CeilDiv(n, p)
  {}

  // execute is over within ceil(n / parallel) times the longest execution.
  lemma ExecuteMeetsItsDeadline(q: Query, bound: nat, t: Timed)
    requires q.parallel > 0 && bound > 0 && TimedReachable(q, bound, t)
    ensures t.now <= CeilDiv(q.Size(), q.parallel) * bound
  {
    TimedReachableInv(q, bound, t);
    if t.now > 0 {
      var k: nat, r: nat :| InWindow(q, bound, t, k, r);
      CeilIsAbove(k, q.Size(), q.parallel);
      Monotone(k + 1, CeilDiv(q.Size(), q.parallel), bound);
      Successor(k, bound);
    }
  }

  // For a validated query: never more than the configured number of targets at
  // once, and done within ceil(targets / that number) times the longest execution.
  lemma ValidatedQueryMeetsItsDeadline(
      asked: seq<Target>, cfg: Config, worlds: nat -> World, disturbed: nat -> World, bound: nat, t: Timed)
    requires cfg.Valid() && bound > 0 && TimedReachable(QueryOf(asked, cfg, worlds, disturbed), bound, t)
    ensures SumBy(t.s.pcs, InsideExecute) <= cfg.maxParallelTargets
    ensures t.now <= CeilDiv(|asked|, cfg.maxParallelTargets) * bound
  {
    var q := QueryOf(asked, cfg, worlds, disturbed);
    TimedReachableInv(q, bound, t);
    SumByGrows(t.s.pcs, InsideExecute, HoldsToken);
    ExecuteMeetsItsDeadline(q, bound, t);
  }

  // The clock never blocks the scheduler: until execute returns, either a step
  // other than a cancel is possible or time may pass.
  lemma TimeOrWork(q: Query, bound: nat, t: Timed) returns (e: Event)
    requires q.parallel > 0 && bound > 0 && TimedReachable(q, bound, t) && !t.s.returned
    ensures CanOccur(q, bound, t, e) && e != Happen(Cancel)
  {
    TimedReachableInv(q, bound, t);
    if CanTick(q, bound, t) {
      e := Tick;
    } else {
      var step := SomebodyCanMove(q, t.s);
      e := Happen(step);
    }
  }

  function Ticks(events: seq<Event>): nat {
    if events == [] then 0 else (if events[0].Tick? then 1 else 0) + Ticks(events[1..])
  }

  lemma {:induction false} TimedRunIsBounded(q: Query, bound: nat, t: Timed, events: seq<Event>)
    requires q.parallel > 0 && bound > 0 && CanPlay(q, bound, t, events) && Inv(q, t.s)
    ensures Played(q, bound, t, events).now == t.now + Ticks(events)
    ensures |events| <= Measure(t.s) + Ticks(events)
    decreases |events|
  {
    if events == [] {
    } else {
      if events[0].Happen? {
        EveryStepMakesProgress(q, t.s, events[0].step);
        SlotsInvStep(q, t.s, events[0].step);
        CountsInvStep(q, t.s, events[0].step);
      }
      TimedRunIsBounded(q, bound, Occur(q, bound, t, events[0]), events[1..]);
    }
  }

  // Every timed run is finite: at most 6n + 2 steps and ceil(n / parallel) * bound
  // ticks; and one that cannot go on has returned.
  lemma EveryTimedRunEnds(q: Query, bound: nat, events: seq<Event>)
    requires q.parallel > 0 && bound > 0 && CanPlay(q, bound, TimedStart(q), events)
    ensures |events| <= 6 * q.Size() + 2 + CeilDiv(q.Size(), q.parallel) * bound
    ensures (forall e :: !CanOccur(q, bound, Played(q, bound, TimedStart(q), events), e)) ==>
              Played(q, bound, TimedStart(q), events).s.returned
  {
    var t := Played(q, bound, TimedStart(q), events);
    assert TimedReachable(q, bound, t);
    StartInv(q);
    TimedRunIsBounded(q, bound, TimedStart(q), events);
    SumByAtMost(Start(q).pcs, Rank, 6);
    ExecuteMeetsItsDeadline(q, bound, t);
    if !t.s.returned {
      var e := TimeOrWork(q, bound, t);
    }
  }
}

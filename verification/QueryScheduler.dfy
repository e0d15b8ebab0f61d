// Running the targets of one query: a goroutine per target, a semaphore of
// bounded capacity, one result slot each, and cancellation racing them all.
module QueryScheduler {
  import opened Options
  import opened Models
  import opened Config
  import opened Validation
  import opened Executor
  import opened Counting
  import opened Snmp

  function RefusedOps(ops: seq<Operation>): (r: seq<OperationResult>)
    ensures |r| == |ops| && forall j :: 0 <= j < |ops| ==> r[j] == ErrorResult(ops[j], CANCELED)
  {
    seq(|ops|, j requires 0 <= j < |ops| => ErrorResult(ops[j], CANCELED))
  }

  // What executing target i returns, if it is executed at all: exec(i) when the
  // query is not canceled meanwhile, interrupted(i) when it may have been.
  datatype Query = Query(
    requests: seq<Target>, parallel: nat, exec: nat -> seq<OperationResult>, interrupted: nat -> seq<OperationResult>)
  {
    function Size(): nat { |requests| }

    function Answered(i: nat): TargetResult
      requires i < |requests|
    {
      TargetResult(requests[i].target, requests[i].port, exec(i))
    }

    function Interrupted(i: nat): TargetResult
      requires i < |requests|
    {
      TargetResult(requests[i].target, requests[i].port, interrupted(i))
    }

    function Refusal(i: nat): TargetResult
      requires i < |requests|
    {
      TargetResult(requests[i].target, requests[i].port, RefusedOps(requests[i].operations))
    }
  }

  // Unborn: not yet started. Holding: slot written, token still held.
  datatype Pc = Unborn | Selecting | Executing | Writing | WritingLate | Holding | Refused | Leaving | Exited

  datatype State = State(
    pcs: seq<Pc>, results: seq<Option<TargetResult>>, writes: seq<nat>, tokens: nat,
    waitGroup: int, spawned: nat, canceled: bool, returned: bool)

  function Start(q: Query): State {
    State(seq(q.Size(), i => Unborn), seq(q.Size(), i => None), seq(q.Size(), i => 0), 0, 0, 0, false, false)
  }

  // ---- steps ---------------------------------------------------------------

  datatype Action = Acquire | Refuse | ReturnFromExecute | ReturnInterrupted | WriteAnswer | WriteInterrupted | WriteRefusal | Release | Leave

  datatype Step = Spawn | Cancel | Return | G(i: nat, act: Action)

  predicate CanAct(q: Query, s: State, pc: Pc, a: Action) {
    match a
    case Acquire => pc == Selecting && s.tokens < q.parallel
    case Refuse => pc == Selecting && s.canceled
    case ReturnFromExecute => pc == Executing
    case ReturnInterrupted => pc == Executing && s.canceled
    case WriteAnswer => pc == Writing
    case WriteInterrupted => pc == WritingLate
    case WriteRefusal => pc == Refused
    case Release => pc == Holding && s.tokens > 0
    case Leave => pc == Leaving
  }

  predicate Enabled(q: Query, s: State, step: Step) {
    match step
    case Spawn => s.spawned < |s.pcs| && !s.returned
    case Cancel => !s.canceled
    case Return => s.spawned == |s.pcs| && s.waitGroup == 0 && !s.returned
    case G(i, a) => i < |s.pcs| == |s.results| == |s.writes| == q.Size() && CanAct(q, s, s.pcs[i], a)
  }

  function NextPc(a: Action): Pc {
    match a
    case Acquire => Executing
    case Refuse => Refused
    case ReturnFromExecute => Writing
    case ReturnInterrupted => WritingLate
    case WriteAnswer => Holding
    case WriteInterrupted => Holding
    case WriteRefusal => Leaving
    case Release => Leaving
    case Leave => Exited
  }

  function Act(q: Query, s: State, i: nat, a: Action): State
    requires Enabled(q, s, G(i, a))
  {
    var t := s.(pcs := s.pcs[i := NextPc(a)]);
    match a
    case Acquire => t.(tokens := s.tokens + 1)
    case Release => t.(tokens := s.tokens - 1)
    case Leave => t.(waitGroup := s.waitGroup - 1)
    case WriteAnswer => t.(results := s.results[i := Some(q.Answered(i))], writes := s.writes[i := s.writes[i] + 1])
    case WriteInterrupted => t.(results := s.results[i := Some(q.Interrupted(i))], writes := s.writes[i := s.writes[i] + 1])
    case WriteRefusal => t.(results := s.results[i := Some(q.Refusal(i))], writes := s.writes[i := s.writes[i] + 1])
    case Refuse => t
    case ReturnFromExecute => t
    case ReturnInterrupted => t
  }

  function Do(q: Query, s: State, step: Step): State
    requires Enabled(q, s, step)
  {
    match step
    case Spawn => s.(pcs := s.pcs[s.spawned := Selecting], spawned := s.spawned + 1, waitGroup := s.waitGroup + 1)
    case Cancel => s.(canceled := true)
    case Return => s.(returned := true)
    case G(i, a) => Act(q, s, i, a)
  }

  predicate CanRun(q: Query, s: State, steps: seq<Step>)
    decreases |steps|
  {
    steps == [] || (Enabled(q, s, steps[0]) && CanRun(q, Do(q, s, steps[0]), steps[1..]))
  }

  function After(q: Query, s: State, steps: seq<Step>): State
    requires CanRun(q, s, steps)
    decreases |steps|
  {
    if steps == [] then s else After(q, Do(q, s, steps[0]), steps[1..])
  }

  ghost predicate Reachable(q: Query, s: State) {
    exists steps :: CanRun(q, Start(q), steps) && After(q, Start(q), steps) == s
  }

  // ---- counting goroutines -----------------------------------------------------

  function HoldsToken(pc: Pc): nat {
    if pc in {Executing, Writing, WritingLate, Holding} then 1 else 0
  }

  function InsideExecute(pc: Pc): nat {
    if pc == Executing then 1 else 0
  }

  function Alive(pc: Pc): nat {
    if pc == Unborn || pc == Exited then 0 else 1
  }

  predicate Written(pc: Pc) {
    pc in {Holding, Leaving, Exited}
  }

  // ---- invariants ----------------------------------------------------------------

  // Goroutine i and its slot.
  predicate SlotOk(q: Query, i: nat, pc: Pc, result: Option<TargetResult>, writes: nat, spawned: nat, canceled: bool)
    requires i < q.Size()
  {
    && (pc == Unborn <==> i >= spawned)
    && (result.Some? <==> Written(pc))
    && writes == (if result.Some? then 1 else 0)
    && (result.Some? ==> result.value == q.Answered(i) || (canceled && result.value in {q.Interrupted(i), q.Refusal(i)}))
    && (pc == Refused || pc == WritingLate ==> canceled)
  }

  ghost predicate SlotsInv(q: Query, s: State) {
    && |s.pcs| == |s.results| == |s.writes| == q.Size()
    && forall i :: 0 <= i < q.Size() ==> SlotOk(q, i, s.pcs[i], s.results[i], s.writes[i], s.spawned, s.canceled)
  }

  ghost predicate CountsInv(q: Query, s: State) {
    && s.spawned <= |s.pcs|
    && s.tokens == SumBy(s.pcs, HoldsToken) <= q.parallel
    && s.waitGroup == SumBy(s.pcs, Alive)
    && (s.returned ==> s.spawned == |s.pcs| && s.waitGroup == 0)
  }

  ghost predicate Inv(q: Query, s: State) {
    SlotsInv(q, s) && CountsInv(q, s)
  }

  lemma StartInv(q: Query)
    ensures Inv(q, Start(q))
  {
    SumByZero(Start(q).pcs, HoldsToken);
    SumByZero(Start(q).pcs, Alive);
  }

  // What one action does to its own slot, and to nothing else.
  lemma OwnSlot(q: Query, s: State, i: nat, a: Action)
    requires Enabled(q, s, G(i, a)) && SlotOk(q, i, s.pcs[i], s.results[i], s.writes[i], s.spawned, s.canceled)
    ensures var t := Act(q, s, i, a);
            && t.pcs == s.pcs[i := NextPc(a)] && t.results == s.results[i := t.results[i]] && t.writes == s.writes[i := t.writes[i]]
            && t.spawned == s.spawned && t.canceled == s.canceled && t.returned == s.returned
            && SlotOk(q, i, t.pcs[i], t.results[i], t.writes[i], t.spawned, t.canceled)
  {}

  lemma SlotsInvStep(q: Query, s: State, step: Step)
    requires Enabled(q, s, step) && SlotsInv(q, s)
    ensures SlotsInv(q, Do(q, s, step))
  {
    if step.G? {
      OwnSlot(q, s, step.i, step.act);
    }
  }

  lemma CountsByAction(q: Query, s: State, i: nat, a: Action)
    requires Enabled(q, s, G(i, a))
    ensures var t := Act(q, s, i, a);
            && t.tokens + HoldsToken(s.pcs[i]) == s.tokens + HoldsToken(NextPc(a))
            && t.waitGroup + Alive(s.pcs[i]) == s.waitGroup + Alive(NextPc(a))
            && Alive(s.pcs[i]) == 1 && t.tokens <= (if a == Acquire then q.parallel else s.tokens)
            && t.pcs == s.pcs[i := NextPc(a)] && t.spawned == s.spawned && t.returned == s.returned
  {}

  lemma CountsInvStep(q: Query, s: State, step: Step)
    requires Enabled(q, s, step) && Inv(q, s)
    ensures CountsInv(q, Do(q, s, step))
  {
    if step.Spawn? {
      SumByMove(s.pcs, s.spawned, Selecting, HoldsToken);
      SumByMove(s.pcs, s.spawned, Selecting, Alive);
    } else if step.G? {
      CountsByAction(q, s, step.i, step.act);
      SumByMove(s.pcs, step.i, NextPc(step.act), HoldsToken);
      SumByMove(s.pcs, step.i, NextPc(step.act), Alive);
      SumByZero(s.pcs, Alive);
    }
  }

  lemma {:induction false} InvRun(q: Query, s: State, steps: seq<Step>)
    requires CanRun(q, s, steps) && Inv(q, s)
    ensures Inv(q, After(q, s, steps))
    decreases |steps|
  {
    if steps == [] {
    } else {
      SlotsInvStep(q, s, steps[0]);
      CountsInvStep(q, s, steps[0]);
      InvRun(q, Do(q, s, steps[0]), steps[1..]);
    }
  }

  lemma ReachableInv(q: Query, s: State)
    requires Reachable(q, s)
    ensures Inv(q, s)
  {
    var steps :| CanRun(q, Start(q), steps) && After(q, Start(q), steps) == s;
    StartInv(q);
    InvRun(q, Start(q), steps);
  }

  // ---- bounded parallelism ----------------------------------------------------------

  // Under every interleaving and cancellation, the tokens taken are those of the
  // goroutines between taking and releasing one, and no more than the limit of
  // targets is inside Execute.
  lemma ParallelismIsBounded(q: Query, s: State)
    requires Reachable(q, s)
    ensures SumBy(s.pcs, InsideExecute) <= s.tokens == SumBy(s.pcs, HoldsToken) <= q.parallel
  {
    ReachableInv(q, s);
    SumByGrows(s.pcs, InsideExecute, HoldsToken);
  }

  // A goroutine writes only its own slot, and a written slot never changes.
  lemma SlotsAreOwned(q: Query, s: State, step: Step, k: nat)
    requires Reachable(q, s) && Enabled(q, s, step) && k < q.Size()
    ensures |s.results| == |Do(q, s, step).results| == q.Size()
    ensures Do(q, s, step).results[k] != s.results[k] ==> step in {G(k, WriteAnswer), G(k, WriteInterrupted), G(k, WriteRefusal)}
    ensures s.results[k].Some? ==> Do(q, s, step).results[k] == s.results[k]
  {
    ReachableInv(q, s);
  }

  // When execute returns, every slot has been written exactly once, in request
  // order, with its target's answer or, only under cancellation, what an
  // interrupted execution returned or the refusal; without
  // cancellation the response does not depend on the schedule at all.
  lemma ResponseIsComplete(q: Query, s: State)
    requires Reachable(q, s) && s.returned
    ensures |s.pcs| == |s.results| == |s.writes| == q.Size() && s.tokens == 0
    ensures forall i :: 0 <= i < q.Size() ==> s.pcs[i] == Exited && s.writes[i] == 1 && s.results[i].Some?
    ensures forall i :: 0 <= i < q.Size() ==>
              s.results[i].value == q.Answered(i) || (s.canceled && s.results[i].value in {q.Interrupted(i), q.Refusal(i)})
    ensures !s.canceled ==> s.results == seq(q.Size(), i requires 0 <= i < q.Size() => Some(q.Answered(i)))
  {
    ReachableInv(q, s);
    SumByZero(s.pcs, Alive);
    SumByZero(s.pcs, HoldsToken);
    forall i | 0 <= i < q.Size() ensures s.pcs[i] == Exited {
      assert Alive(s.pcs[i]) == 0;
    }
  }

  // ---- progress ------------------------------------------------------------------

  function Rank(pc: Pc): nat {
    match pc
    case Unborn => 6
    case Selecting => 5
    case Executing => 4
    case Writing => 3
    case WritingLate => 3
    case Refused => 3
    case Holding => 2
    case Leaving => 1
    case Exited => 0
  }

  function Measure(s: State): nat {
    SumBy(s.pcs, Rank) + (if s.canceled then 0 else 1) + (if s.returned then 0 else 1)
  }

  lemma RankFalls(q: Query, s: State, i: nat, a: Action)
    requires Enabled(q, s, G(i, a))
    ensures var t := Act(q, s, i, a);
            && Rank(NextPc(a)) < Rank(s.pcs[i])
            && t.pcs == s.pcs[i := NextPc(a)] && t.canceled == s.canceled && t.returned == s.returned
  {}

  lemma EveryStepMakesProgress(q: Query, s: State, step: Step)
    requires Enabled(q, s, step) && Inv(q, s)
    ensures Measure(Do(q, s, step)) < Measure(s)
  {
    match step
    case Spawn => SumByMove(s.pcs, s.spawned, Selecting, Rank);
    case G(i, a) => RankFalls(q, s, i, a); SumByMove(s.pcs, i, NextPc(a), Rank);
    case _ =>
  }

  // The next step of a goroutine that is past the select.
  function NextAct(pc: Pc): Action {
    match pc
    case Executing => ReturnFromExecute
    case Writing => WriteAnswer
    case WritingLate => WriteInterrupted
    case Holding => Release
    case Refused => WriteRefusal
    case Leaving => Leave
    case _ => Acquire
  }

  // Until execute returns, somebody can move, provided Execute returns.
  lemma SomebodyCanMove(q: Query, s: State) returns (step: Step)
    requires Inv(q, s) && !s.returned && q.parallel > 0
    ensures Enabled(q, s, step) && step != Cancel
  {
    SumByZero(s.pcs, HoldsToken);
    SumByZero(s.pcs, Alive);
    if s.spawned < |s.pcs| {
      step := Spawn;
    } else if i :| 0 <= i < |s.pcs| && HoldsToken(s.pcs[i]) == 1 {
      step := G(i, NextAct(s.pcs[i]));
    } else if i :| 0 <= i < |s.pcs| && Alive(s.pcs[i]) == 1 {
      step := G(i, NextAct(s.pcs[i]));
    } else {
      step := Return;
    }
  }

  ghost predicate Stuck(q: Query, s: State) {
    forall step :: !Enabled(q, s, step)
  }

  lemma {:induction false} RunIsBounded(q: Query, s: State, steps: seq<Step>)
    requires Inv(q, s) && CanRun(q, s, steps)
    ensures |steps| <= Measure(s)
    decreases |steps|
  {
    if steps == [] {
    } else {
      EveryStepMakesProgress(q, s, steps[0]);
      SlotsInvStep(q, s, steps[0]);
      CountsInvStep(q, s, steps[0]);
      RunIsBounded(q, Do(q, s, steps[0]), steps[1..]);
    }
  }

  // Every run of a query over n targets has at most 6n + 2 steps, and one that
  // cannot go on has returned.
  lemma EveryRunEnds(q: Query, steps: seq<Step>)
    requires q.parallel > 0 && CanRun(q, Start(q), steps)
    ensures |steps| <= 6 * q.Size() + 2
    ensures Stuck(q, After(q, Start(q), steps)) ==> After(q, Start(q), steps).returned
  {
    StartInv(q);
    RunIsBounded(q, Start(q), steps);
    SumByAtMost(Start(q).pcs, Rank, 6);
    InvRun(q, Start(q), steps);
    if !After(q, Start(q), steps).returned {
      var step := SomebodyCanMove(q, After(q, Start(q), steps));
    }
  }

  // ---- the response of a validated query ----------------------------------------

  function ValueCount(r: OperationResult): nat {
    |r.values|
  }

  function Varbinds(r: TargetResult): nat {
    SumBy(r.operations, ValueCount)
  }

  function TotalVarbinds(results: seq<TargetResult>): nat {
    SumBy(results, Varbinds)
  }

  // The slots, once all are written.
  function Response(s: State): (r: seq<TargetResult>)
    requires forall i :: 0 <= i < |s.results| ==> s.results[i].Some?
    ensures |r| == |s.results| && forall i :: 0 <= i < |r| ==> r[i] == s.results[i].value
  {
    seq(|s.results|, i requires 0 <= i < |s.results| => s.results[i].value)
  }

  // What Execute returns for request i; a panic returns nothing.
  function ExecutedIn(requests: seq<Target>, worlds: nat -> World, limit: int, i: nat): seq<OperationResult> {
    if i >= |requests| then []
    else match ExecutionOf(requests[i], worlds(i), limit) case Finished(results) => results case Panicked => []
  }

  // The same surroundings, without any cancellation.
  function Undisturbed(w: World): World {
    w.(canceled := (j: nat) => false)
  }

  // The query that runs after validation. worlds(i) is what the surroundings do
  // while target i is executed, from the moment of a cancellation on, in
  // disturbed(i); without one no operation finds the request canceled.
  function QueryOf(asked: seq<Target>, cfg: Config, worlds: nat -> World, disturbed: nat -> World): (q: Query)
    requires cfg.Valid()
  {
    var requests, limit := NormalQuery(asked, cfg), cfg.maxVarbindsPerOperation;
    var calm := (i: nat) => Undisturbed(worlds(i));
    Query(requests, cfg.maxParallelTargets,
          (i: nat) => ExecutedIn(requests, calm, limit, i), (i: nat) => ExecutedIn(requests, disturbed, limit, i))
  }

  lemma RefusalIsWellShaped(ops: seq<Operation>, limit: nat)
    ensures WellShaped(ops, RefusedOps(ops), limit)
  {}

  lemma NormalKeepsKinds(t: Target, cfg: Config, results: seq<OperationResult>, limit: int)
    requires WellShaped(NormalTarget(t, cfg).operations, results, limit)
    ensures WellShaped(t.operations, results, limit)
  {}

  lemma Product(a: nat, b: nat, c: nat)
    requires a <= b
    ensures a * c <= b * c
  {}

  // A slot of the response to an accepted query is for the requested target and
  // the normalised port, with one well-shaped result per requested operation.
  ghost predicate GoodSlot(t: Target, cfg: Config, r: TargetResult) {
    && r.target == t.target && r.port == (if t.port == 0 then 161 else t.port)
    && WellShaped(t.operations, r.operations, cfg.maxVarbindsPerOperation)
  }

  // Each result tells what became of its operation in the given surroundings.
  ghost predicate TellsAll(t: Target, cfg: Config, w: World, r: TargetResult)
    requires |r.operations| == |t.operations|
  {
    forall j :: 0 <= j < |t.operations| ==> Tells(r.operations[j], w, cfg.maxVarbindsPerOperation, j)
  }

  // Every operation is refused as canceled.
  ghost predicate AllRefused(t: Target, r: TargetResult)
    requires |r.operations| == |t.operations|
  {
    forall j :: 0 <= j < |t.operations| ==>
      r.operations[j] == OperationResult(t.operations[j].kind, "error", [], Some(ApiError("internal_error", "request canceled")))
  }

  // Each operation is ok exactly when its target was reached and the agent's reply
  // has no failure and is within the limit.
  ghost predicate OkWhenAnswered(t: Target, cfg: Config, w: World, r: TargetResult)
    requires |r.operations| == |t.operations|
  {
    forall j :: 0 <= j < |t.operations| ==>
      (r.operations[j].status == "ok" <==>
        w.connectFailure.None? && w.reply(j).failure.None? && |w.reply(j).pdus| <= cfg.maxVarbindsPerOperation)
  }

  lemma UndisturbedIsOkWhenAnswered(t: Target, cfg: Config, w: World, r: TargetResult)
    requires |r.operations| == |t.operations| && TellsAll(t, cfg, Undisturbed(w), r)
    ensures OkWhenAnswered(t, cfg, w, r)
  {}

  // What a slot may hold, given whether the query was canceled.
  ghost predicate RightSlot(t: Target, cfg: Config, w: World, disturbed: World, canceled: bool, r: TargetResult) {
    && GoodSlot(t, cfg, r)
    && (|| TellsAll(t, cfg, Undisturbed(w), r)
        || (canceled && (TellsAll(t, cfg, disturbed, r) || AllRefused(t, r))))
    && (!canceled ==> OkWhenAnswered(t, cfg, w, r))
  }

  lemma ExecutedSlot(asked: seq<Target>, cfg: Config, w: World, i: nat)
    requires cfg.Valid() && QueryAcceptable(asked, cfg) && i < |asked|
    ensures var n := NormalTarget(asked[i], cfg);
            var x := ExecutionOf(n, w, cfg.maxVarbindsPerOperation);
            && NormalQuery(asked, cfg)[i] == n && x.Finished?
            && (var r := TargetResult(n.target, n.port, x.results);
                GoodSlot(asked[i], cfg, r) && TellsAll(asked[i], cfg, w, r))
  {
    assert TargetAcceptable(asked[i], cfg);
    ValidatedExecution(asked[i], cfg, w);
  }

  lemma RefusedSlot(asked: seq<Target>, cfg: Config, i: nat)
    requires cfg.Valid() && QueryAcceptable(asked, cfg) && i < |asked|
    ensures var n := NormalTarget(asked[i], cfg);
            var r := TargetResult(n.target, n.port, RefusedOps(n.operations));
            NormalQuery(asked, cfg)[i] == n && GoodSlot(asked[i], cfg, r) && AllRefused(asked[i], r)
  {
    var n := NormalTarget(asked[i], cfg);
    RefusalIsWellShaped(n.operations, cfg.maxVarbindsPerOperation);
    NormalKeepsKinds(asked[i], cfg, RefusedOps(n.operations), cfg.maxVarbindsPerOperation);
  }

  lemma AnswersAreWellShaped(asked: seq<Target>, cfg: Config, worlds: nat -> World, disturbed: nat -> World, i: nat)
    requires cfg.Valid() && QueryAcceptable(asked, cfg) && i < |asked|
    ensures var q, limit := QueryOf(asked, cfg, worlds, disturbed), cfg.maxVarbindsPerOperation;
            && q.Size() == |asked|
            && ExecutionOf(NormalTarget(asked[i], cfg), Undisturbed(worlds(i)), limit) == Finished(q.exec(i))
            && ExecutionOf(NormalTarget(asked[i], cfg), disturbed(i), limit) == Finished(q.interrupted(i))
            && GoodSlot(asked[i], cfg, q.Answered(i)) && TellsAll(asked[i], cfg, Undisturbed(worlds(i)), q.Answered(i))
            && GoodSlot(asked[i], cfg, q.Interrupted(i)) && TellsAll(asked[i], cfg, disturbed(i), q.Interrupted(i))
            && GoodSlot(asked[i], cfg, q.Refusal(i)) && AllRefused(asked[i], q.Refusal(i))
  {
    ExecutedSlot(asked, cfg, Undisturbed(worlds(i)), i);
    ExecutedSlot(asked, cfg, disturbed(i), i);
    RefusedSlot(asked, cfg, i);
  }

  lemma OneTargetIsBounded(t: Target, cfg: Config, r: TargetResult)
    requires cfg.Valid() && TargetAcceptable(t, cfg) && GoodSlot(t, cfg, r)
    ensures Varbinds(r) <= cfg.maxOperationsPerTarget * cfg.maxVarbindsPerOperation
  {
    forall j | 0 <= j < |r.operations| ensures ValueCount(r.operations[j]) <= cfg.maxVarbindsPerOperation {
      assert WellShapedResult(t.operations[j], r.operations[j], cfg.maxVarbindsPerOperation);
    }
    SumByAtMost(r.operations, ValueCount, cfg.maxVarbindsPerOperation);
    Product(|r.operations|, cfg.maxOperationsPerTarget, cfg.maxVarbindsPerOperation);
  }

  // The response to an accepted query, whatever the schedule, the cancellation
  // and the network: every slot is good, in request order, and tells what became
  // of each operation, or, only in a canceled query, that all are refused. In
  // a query that is not canceled an operation is ok exactly when it was answered
  // in full, and none finds the request canceled. There are no more varbinds than
  // the product of the three configured limits.
  lemma ValidatedResponseShapeAndSize(asked: seq<Target>, cfg: Config, worlds: nat -> World, disturbed: nat -> World, s: State)
    requires cfg.Valid() && QueryAcceptable(asked, cfg)
    requires Reachable(QueryOf(asked, cfg, worlds, disturbed), s) && s.returned
    ensures |s.results| == |asked| && forall i :: 0 <= i < |asked| ==>
              s.results[i].Some? && RightSlot(asked[i], cfg, worlds(i), disturbed(i), s.canceled, s.results[i].value)
    ensures TotalVarbinds(Response(s)) <= cfg.maxTargetsPerQuery * (cfg.maxOperationsPerTarget * cfg.maxVarbindsPerOperation)
  {
    var most := cfg.maxOperationsPerTarget * cfg.maxVarbindsPerOperation;
    ResponseIsComplete(QueryOf(asked, cfg, worlds, disturbed), s);
    forall i | 0 <= i < |asked|
      ensures RightSlot(asked[i], cfg, worlds(i), disturbed(i), s.canceled, s.results[i].value)
      ensures Varbinds(Response(s)[i]) <= most
    {
      AnswersAreWellShaped(asked, cfg, worlds, disturbed, i);
      assert TargetAcceptable(asked[i], cfg);
      OneTargetIsBounded(asked[i], cfg, s.results[i].value);
      if !s.canceled { UndisturbedIsOkWhenAnswered(asked[i], cfg, worlds(i), s.results[i].value); }
    }
    SumByAtMost(Response(s), Varbinds, most);
    Product(|asked|, cfg.maxTargetsPerQuery, most);
  }

  // Whether the response holds a failed operation.
  method HasFailures(results: seq<TargetResult>) returns (b: bool)
    ensures b <==> exists i, j :: 0 <= i < |results| && 0 <= j < |results[i].operations| && results[i].operations[j].status == "error"
  {
    for i := 0 to |results|
      invariant forall k, j :: 0 <= k < i && 0 <= j < |results[k].operations| ==> results[k].operations[j].status != "error"
    {
      for j := 0 to |results[i].operations|
        invariant forall l :: 0 <= l < j ==> results[i].operations[l].status != "error"
      {
        if results[i].operations[j].status == "error" {
          return true;
        }
      }
    }
    return false;
  }
}

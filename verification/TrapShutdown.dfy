// The shutdown of the trap service: it is clean, and it always ends.
module TrapShutdown {
  import opened TrapPacket
  import opened Retry
  import opened Counting
  import opened TrapPipeline
  import opened TrapInvariants
  import opened TrapDelivery

  // ---- shutdown ------------------------------------------------------------------

  lemma {:induction false} OfferBags(offers: seq<Offer>)
    ensures multiset(Offered(offers)) == multiset(OfferedAs(offers, true)) + multiset(OfferedAs(offers, false))
  {
    if offers == [] {
    } else {
      OfferBags(offers[..|offers| - 1]);
    }
  }

  lemma EverybodyHasLeft(e: Env, s: State)
    requires ShutdownInv(e, s.reader, s.workers, s.queue, s.sd, s.h.log) && |s.workers| == (if e.enabled then e.workers else 0)
    requires s.sd.closer in {ReturnedNil, ReturnedErr}
    ensures s.queue.closed && s.reader == ReaderGone && forall i :: 0 <= i < |s.workers| ==> s.workers[i] == WorkerGone
    ensures HeldBag(s.workers) == multiset{} && SumBy(s.workers, InHand) == 0
    ensures e.enabled && e.workers > 0 ==> s.queue == Channel([], true)
  {
    AllGone(s.reader, s.workers);
    HeldNothing(s.workers);
    BagSize(s.workers);
    if s.workers != [] { assert s.workers[0] == WorkerGone; }
  }

  lemma DisabledIsIdle(e: Env, s: State)
    requires Inv(e, s) && !e.enabled
    ensures s.queue.items == []
  {}

  lemma AllOffered(e: Env, s: State)
    requires OfferInv(e, s.reader, s.h) && s.reader == ReaderGone
    ensures Offered(s.h.offers) == JobsOf(e, s.h.arrived)
  {}

  lemma NothingIsLeft(e: Env, s: State)
    requires Inv(e, s) && (e.enabled ==> e.workers > 0) && s.sd.closer in {ReturnedNil, ReturnedErr}
    ensures s.queue == Channel([], true) && s.reader == ReaderGone && HeldBag(s.workers) == multiset{}
  {
    EverybodyHasLeft(e, s);
    if !e.enabled { DisabledIsIdle(e, s); }
  }

  lemma LeavesTheLog(taken: seq<Job>, queue: seq<Job>, sent: seq<Job>, logged: multiset<Job>, held: multiset<Job>)
    requires taken + queue == sent && queue == [] && multiset(taken) == logged + held && held == multiset{}
    ensures logged == multiset(sent)
  {
    assert taken == sent;
  }

  // When Close has returned, every accepted trap was either dropped or ended
  // exactly once in the log.
  lemma EveryTrapHasOneFate(e: Env, s: State)
    requires Reachable(e, s) && (e.enabled ==> e.workers > 0) && s.sd.closer in {ReturnedNil, ReturnedErr}
    ensures s.queue == Channel([], true) && multiset(Logged(s.h.log)) == multiset(OfferedAs(s.h.offers, true))
    ensures multiset(JobsOf(e, s.h.arrived)) == multiset(Logged(s.h.log)) + multiset(OfferedAs(s.h.offers, false))
  {
    ReachableInv(e, s);
    NothingIsLeft(e, s);
    DispatchIsFifoAndExactlyOnce(e, s);
    LeavesTheLog(s.h.taken, s.queue.items, OfferedAs(s.h.offers, true), multiset(Logged(s.h.log)), HeldBag(s.workers));
    OfferBags(s.h.offers);
    AllOffered(e, s);
  }

  // No run sends on the closed queue. When Close has returned, the queue is
  // empty and everybody has left; when it returned nil, no job was abandoned and
  // every received trap is accounted for by a final counter.
  lemma ShutdownIsClean(e: Env, s: State)
    requires Reachable(e, s) && (e.enabled ==> e.workers > 0)
    ensures !s.panicked
    ensures s.reader.Sending? ==> !s.queue.closed
    ensures s.sd.closer in {ReturnedNil, ReturnedErr} ==>
              s.queue == Channel([], true) && s.reader == ReaderGone && forall i :: 0 <= i < |s.workers| ==> s.workers[i] == WorkerGone
    ensures s.sd.closer in {ReturnedNil, ReturnedErr} ==>
              multiset(JobsOf(e, s.h.arrived)) == multiset(Logged(s.h.log)) + multiset(OfferedAs(s.h.offers, false))
    ensures s.sd.closer == ReturnedNil ==>
              && Count(s.h.log, Abandoned) == 0
              && s.n.received == |s.h.arrived| == s.n.rejected + s.n.unmatched + s.n.forwarded + s.n.failed
              && multiset(Logged(s.h.log)) == multiset(OfferedAs(s.h.offers, true))
  {
    ReachableInv(e, s);
    if s.sd.closer in {ReturnedNil, ReturnedErr} {
      EverybodyHasLeft(e, s);
      EveryTrapHasOneFate(e, s);
      TrapsAreConserved(e, s);
    }
  }

  // ---- shutdown always ends -----------------------------------------------------

  function Minus(a: nat, b: nat): nat {
    if a >= b then a - b else 0
  }

  // The steps a worker has left, at most, before it leaves an empty closed queue.
  function Rank(retries: nat, w: WorkerPc): nat {
    match w
    case WorkerGone => 0
    case Finishing => 1
    case Idle => 2
    case Succeeding(_, _) => 3
    case Failing(_, _) => 3
    case Posting(_, seen) => 4 + 3 * Minus(retries, |seen|)
    case Waiting(_, seen) => 2 + 3 * Minus(retries + 1, |seen|)
    case Noting(_, seen) => 3 + 3 * Minus(retries + 1, |seen|)
    case Encoding(_) => 5 + 3 * retries
  }

  function RankOf(retries: nat): WorkerPc -> nat {
    w => Rank(retries, w)
  }

  // What one more queued job can cost.
  function JobCost(retries: nat): nat {
    4 + 3 * retries
  }

  function ReaderRank(retries: nat, r: ReaderPc): nat {
    match r
    case ReaderGone => 0
    case Leaving => 1
    case ClosingReadDone => 2
    case Reading => 3
    case Answering(_) => 4
    case Rejecting(_) => 4
    case Missing(_) => 4
    case Noticing(_) => 5
    case Dropping(_, _) => 5
    case Sending(_, _) => 6 + JobCost(retries)
    case Matching(_, _) => 7 + JobCost(retries)
    case Judging(_) => 8 + JobCost(retries)
    case Counting(_) => 9 + JobCost(retries)
  }

  function ClosingRank(sd: Shutdown): nat {
    (match sd.waiter case NotStarted => 2 case OnWaitGroup => 1 case DoneClosed => 0) +
    (match sd.closer
     case NotCalled => 8
     case AwaitReader => 7
     case ClosingQueue => 6
     case Selecting => 5
     case CancelingErr => 4
     case AwaitDone => 3
     case CancelingNil => 2
     case ReturnedNil => 0
     case ReturnedErr => 0)
  }

  function QueueRank(retries: nat, queue: seq<Job>): nat {
    if queue == [] then 0 else QueueRank(retries, queue[1..]) + JobCost(retries)
  }

  lemma {:induction false} QueueRankGrows(retries: nat, queue: seq<Job>, job: Job)
    ensures QueueRank(retries, queue + [job]) == QueueRank(retries, queue) + JobCost(retries)
  {
    if queue != [] {
      QueueRankGrows(retries, queue[1..], job);
      assert (queue + [job])[1..] == queue[1..] + [job];
    } else {
      assert (queue + [job])[1..] == [];
    }
  }

  function Measure(e: Env, s: State): nat {
    ReaderRank(e.retries, s.reader) + QueueRank(e.retries, s.queue.items) + SumBy(s.workers, RankOf(e.retries)) + ClosingRank(s.sd)
  }

  // Every step of the reader but the send itself lowers its own rank.
  lemma ReaderRankFalls(e: Env, s: State, a: ReadAction)
    requires CanRead(s, a) && s.sd.connClosed && !s.reader.Sending?
    ensures var t := DoRead(e, s, a);
            && ReaderRank(e.retries, t.reader) < ReaderRank(e.retries, s.reader)
            && t.sd.closer == s.sd.closer && t.sd.waiter == s.sd.waiter
  {}

  lemma MeasureByReader(e: Env, s: State, a: ReadAction)
    requires CanRead(s, a) && s.sd.connClosed && (s.reader.Sending? ==> !s.queue.closed)
    ensures Measure(e, DoRead(e, s, a)) < Measure(e, s)
  {
    if s.reader.Sending? {
      QueueRankGrows(e.retries, s.queue.items, s.reader.job);
    } else {
      ReaderFrame(e, s, a);
      ReaderRankFalls(e, s, a);
    }
  }

  lemma RankByWorker(e: Env, s: State, i: nat, a: WorkAction)
    requires Enabled(s, W(i, a)) && WorkerFollowsRule(e, s.workers[i])
    ensures var t := DoWork(e, s, i, a);
            && QueueRank(e.retries, t.queue.items) + Rank(e.retries, t.workers[i]) < QueueRank(e.retries, s.queue.items) + Rank(e.retries, s.workers[i])
            && t.reader == s.reader && ClosingRank(t.sd) == ClosingRank(s.sd) && t.workers == s.workers[i := t.workers[i]]
  {}

  lemma MeasureByWorker(e: Env, s: State, i: nat, a: WorkAction)
    requires Enabled(s, W(i, a)) && WorkerFollowsRule(e, s.workers[i])
    ensures Measure(e, DoWork(e, s, i, a)) < Measure(e, s)
  {
    RankByWorker(e, s, i, a);
    SumByMove(s.workers, i, DoWork(e, s, i, a).workers[i], RankOf(e.retries));
  }

  lemma MeasureByClose(e: Env, s: State, a: CloseAction)
    requires CanClose(s.sd, a) && ShutdownInv(e, s.reader, s.workers, s.queue, s.sd, s.h.log)
    ensures Measure(e, DoClose(s, a)) < Measure(e, s)
  {}

  lemma ConnStaysClosed(e: Env, s: State, step: Step)
    requires s.sd.connClosed && Enabled(s, step)
    ensures Do(e, s, step).sd.connClosed
  {
    if step.W? { ShutdownByWorker(e, s, step.i, step.work); }
  }

  // Once the socket is closed, every step of anybody uses some of the measure up.
  lemma EveryStepMakesProgress(e: Env, s: State, step: Step)
    requires Inv(e, s) && s.sd.connClosed && Enabled(s, step)
    ensures Measure(e, Do(e, s, step)) < Measure(e, s)
  {
    match step
    case R(a) => MeasureByReader(e, s, a);
    case W(i, a) => MeasureByWorker(e, s, i, a);
    case C(a) => MeasureByClose(e, s, a);
  }

  // A step that is always open to a worker of a closed queue.
  function NextOf(s: State, w: WorkerPc): WorkAction {
    match w
    case Idle => if s.queue.items != [] then Take else FindDrained
    case Encoding(_) => Encode
    case Posting(_, _) => Answer(NetworkError)
    case Noting(_, _) => NoteRetry
    case Waiting(_, _) => Timer
    case Succeeding(_, _) => RecordOutcome
    case Failing(_, _) => RecordOutcome
    case Finishing => Leave
    case WorkerGone => Leave
  }

  lemma NextIsOpen(s: State, i: nat)
    requires i < |s.workers| && s.workers[i] != WorkerGone && s.queue.closed
    ensures Enabled(s, W(i, NextOf(s, s.workers[i])))
  {}

  // What the closer and the waiter can do once everybody else has left.
  function LastStep(sd: Shutdown): CloseAction {
    if sd.waiter == OnWaitGroup then WaiterStep else if sd.closer == Selecting then PickDone else FinishErr
  }

  lemma LastStepIsOpen(e: Env, s: State)
    requires ShutdownInv(e, s.reader, s.workers, s.queue, s.sd, s.h.log) && s.reader == ReaderGone
    requires s.sd.closer in {Selecting, AwaitDone} && forall i :: 0 <= i < |s.workers| ==> s.workers[i] == WorkerGone
    ensures CanClose(s.sd, LastStep(s.sd)) && LastStep(s.sd) != Deadline
  {
    SumByZero(s.workers, Live);
  }

  // Until Close has returned, somebody can move without waiting for the deadline.
  lemma SomebodyCanMove(e: Env, s: State) returns (step: Step)
    requires ShutdownInv(e, s.reader, s.workers, s.queue, s.sd, s.h.log)
    requires s.sd.connClosed && s.sd.closer !in {ReturnedNil, ReturnedErr}
    ensures Enabled(s, step) && step != C(Deadline)
  {
    if s.reader == Reading {
      step := R(ReadClosed);
    } else if s.reader != ReaderGone {
      step := R(Advance);
    } else if s.sd.closer == AwaitReader {
      step := C(SeeReadDone);
    } else if s.sd.closer == ClosingQueue {
      step := C(CloseQueue);
    } else if s.sd.closer == CancelingNil || s.sd.closer == CancelingErr {
      step := C(Cancel);
    } else if exists i :: 0 <= i < |s.workers| && s.workers[i] != WorkerGone {
      var i :| 0 <= i < |s.workers| && s.workers[i] != WorkerGone;
      step := W(i, NextOf(s, s.workers[i]));
      NextIsOpen(s, i);
    } else {
      step := C(LastStep(s.sd));
      LastStepIsOpen(e, s);
    }
  }

  ghost predicate Stuck(s: State) {
    forall step :: !Enabled(s, step)
  }

  lemma {:induction false} RunIsBounded(e: Env, s: State, steps: seq<Step>)
    requires Inv(e, s) && s.sd.connClosed && CanRun(e, s, steps)
    ensures |steps| <= Measure(e, s) && After(e, s, steps).sd.connClosed
    decreases |steps|
  {
    if steps == [] {
    } else {
      EveryStepMakesProgress(e, s, steps[0]);
      ConnStaysClosed(e, s, steps[0]);
      InvStep(e, s, steps[0]);
      RunIsBounded(e, Do(e, s, steps[0]), steps[1..]);
    }
  }

  lemma CloserStays(e: Env, s: State, step: Step)
    requires Enabled(s, step) && step != C(Deadline) && s.sd.closer !in {CancelingErr, AwaitDone, ReturnedErr}
    ensures Do(e, s, step).sd.closer !in {CancelingErr, AwaitDone, ReturnedErr}
  {
    match step
    case R(a) =>
    case W(i, a) => ShutdownByWorker(e, s, i, a);
    case C(a) =>
  }

  lemma {:induction false} NoDeadlineNoError(e: Env, s: State, steps: seq<Step>)
    requires CanRun(e, s, steps) && C(Deadline) !in steps && s.sd.closer !in {CancelingErr, AwaitDone, ReturnedErr}
    ensures After(e, s, steps).sd.closer !in {CancelingErr, AwaitDone, ReturnedErr}
    decreases |steps|
  {
    if steps == [] {
    } else {
      assert steps[0] in steps && steps == [steps[0]] + steps[1..];
      CloserStays(e, s, steps[0]);
      NoDeadlineNoError(e, Do(e, s, steps[0]), steps[1..]);
    }
  }

  // From the moment the socket is closed, every run has at most Measure steps,
  // whatever the schedule, the replies and the deadline do; and a run that
  // cannot go on has returned from Close, with nil when no deadline cut in.
  lemma ShutdownAlwaysEnds(e: Env, s: State, steps: seq<Step>)
    requires Reachable(e, s) && s.sd.connClosed && CanRun(e, s, steps)
    ensures |steps| <= Measure(e, s)
    ensures Stuck(After(e, s, steps)) ==> After(e, s, steps).sd.closer in {ReturnedNil, ReturnedErr}
    ensures Stuck(After(e, s, steps)) && C(Deadline) !in steps && s.sd.closer in {AwaitReader, ClosingQueue, Selecting} ==>
              After(e, s, steps).sd.closer == ReturnedNil
  {
    ReachableInv(e, s);
    RunIsBounded(e, s, steps);
    InvRun(e, s, steps);
    var t := After(e, s, steps);
    if t.sd.closer !in {ReturnedNil, ReturnedErr} {
      var step := SomebodyCanMove(e, t);
    }
    if C(Deadline) !in steps && s.sd.closer in {AwaitReader, ClosingQueue, Selecting} { NoDeadlineNoError(e, s, steps); }
  }
}

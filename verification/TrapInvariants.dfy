// What holds of the trap service in every reachable state, however its steps
// interleave: the counters, the queue, the workers and the shutdown all agree
// with the history.
module TrapInvariants {
  import opened TrapPacket
  import opened Retry
  import opened Counting
  import opened TrapPipeline

  // ---- the workers --------------------------------------------------------------

  function Live(w: WorkerPc): nat {
    if w == WorkerGone then 0 else 1
  }

  function AllButLast(seen: seq<Reply>): nat {
    if seen == [] then 0 else |seen| - 1
  }

  // The retries the worker has recorded for its job.
  function Noted(w: WorkerPc): nat {
    match w
    case Posting(_, seen) => |seen|
    case Waiting(_, seen) => |seen|
    case Noting(_, seen) => AllButLast(seen)
    case Succeeding(_, seen) => AllButLast(seen)
    case Failing(_, seen) => AllButLast(seen)
    case _ => 0
  }

  predicate Busy(w: WorkerPc) {
    w != Idle && w != Finishing && w != WorkerGone
  }

  // The job a worker holds, if any.
  function Hand(w: WorkerPc): seq<Job> {
    if Busy(w) then [w.job] else []
  }

  // The jobs in the workers' hands.
  function HeldBag(ws: seq<WorkerPc>): multiset<Job> {
    if ws == [] then multiset{} else HeldBag(ws[..|ws| - 1]) + multiset(Hand(ws[|ws| - 1]))
  }

  lemma HeldGrows(front: seq<WorkerPc>, w: WorkerPc)
    ensures HeldBag(front + [w]) == HeldBag(front) + multiset(Hand(w))
  {
    assert (front + [w])[..|front|] == front;
  }

  lemma SwapLast(a: multiset<Job>, b: multiset<Job>, c: multiset<Job>)
    ensures a + b + c == a + c + b
  {}

  lemma AddToBoth(a: multiset<Job>, b: multiset<Job>, c: multiset<Job>, d: multiset<Job>, more: multiset<Job>)
    requires a + b == c + d
    ensures a + more + b == c + more + d
  {
    SwapLast(a, more, b);
    SwapLast(c, more, d);
  }

  lemma HeldMoveLast(front: seq<WorkerPc>, was: WorkerPc, w: WorkerPc)
    ensures HeldBag(front + [w]) + multiset(Hand(was)) == HeldBag(front + [was]) + multiset(Hand(w))
  {
    HeldGrows(front, was);
    HeldGrows(front, w);
    SwapLast(HeldBag(front), multiset(Hand(w)), multiset(Hand(was)));
  }

  lemma HeldMoveFront(front: seq<WorkerPc>, front': seq<WorkerPc>, was: WorkerPc, w: WorkerPc, last: WorkerPc)
    requires HeldBag(front') + multiset(Hand(was)) == HeldBag(front) + multiset(Hand(w))
    ensures HeldBag(front' + [last]) + multiset(Hand(was)) == HeldBag(front + [last]) + multiset(Hand(w))
  {
    HeldGrows(front, last);
    HeldGrows(front', last);
    AddToBoth(HeldBag(front'), multiset(Hand(was)), HeldBag(front), multiset(Hand(w)), multiset(Hand(last)));
  }

  lemma {:induction false} HeldMove(ws: seq<WorkerPc>, i: nat, w: WorkerPc)
    requires i < |ws|
    ensures HeldBag(ws[i := w]) + multiset(Hand(ws[i])) == HeldBag(ws) + multiset(Hand(w))
  {
    var n := |ws| - 1;
    UpdateSplits(ws, i, w);
    if i == n {
      HeldMoveLast(ws[..n], ws[n], w);
    } else {
      HeldMove(ws[..n], i, w);
      HeldMoveFront(ws[..n], ws[..n][i := w], ws[i], w, ws[n]);
    }
  }

  lemma {:induction false} HeldNothing(ws: seq<WorkerPc>)
    requires forall i :: 0 <= i < |ws| ==> !Busy(ws[i])
    ensures HeldBag(ws) == multiset{}
  {
    if ws == [] {
    } else {
      HeldNothing(ws[..|ws| - 1]);
    }
  }

  // ---- what the history comes to ---------------------------------------------

  function CountDisposed(e: Env, ds: seq<Datagram>, rejected: bool): nat {
    if ds == [] then 0
    else
      var last := e.dispose(ds[|ds| - 1]);
      CountDisposed(e, ds[..|ds| - 1], rejected) + (if (rejected && last.Rejected?) || (!rejected && last.Unmatched?) then 1 else 0)
  }

  // The jobs of the accepted datagrams, in order of arrival.
  function JobsOf(e: Env, ds: seq<Datagram>): seq<Job> {
    if ds == [] then []
    else
      var last := e.dispose(ds[|ds| - 1]);
      JobsOf(e, ds[..|ds| - 1]) + (if last.Accepted? then [last.job] else [])
  }

  lemma {:induction false} EveryDatagramIsDisposed(e: Env, ds: seq<Datagram>)
    ensures |ds| == CountDisposed(e, ds, true) + CountDisposed(e, ds, false) + |JobsOf(e, ds)|
  {
    if ds == [] {
    } else {
      EveryDatagramIsDisposed(e, ds[..|ds| - 1]);
    }
  }

  function Offered(offers: seq<Offer>): seq<Job> {
    if offers == [] then [] else Offered(offers[..|offers| - 1]) + [offers[|offers| - 1].job]
  }

  // The jobs that were sent (accepted), or dropped (not accepted).
  function OfferedAs(offers: seq<Offer>, accepted: bool): seq<Job> {
    if offers == [] then []
    else OfferedAs(offers[..|offers| - 1], accepted) + (if offers[|offers| - 1].accepted == accepted then [offers[|offers| - 1].job] else [])
  }

  lemma {:induction false} OffersAreSentOrDropped(offers: seq<Offer>)
    ensures |Offered(offers)| == |OfferedAs(offers, true)| + |OfferedAs(offers, false)|
  {
    if offers == [] {
    } else {
      OffersAreSentOrDropped(offers[..|offers| - 1]);
    }
  }

  function Logged(log: seq<Entry>): seq<Job> {
    if log == [] then [] else Logged(log[..|log| - 1]) + [log[|log| - 1].job]
  }

  function Count(log: seq<Entry>, o: Outcome): nat {
    if log == [] then 0 else Count(log[..|log| - 1], o) + (if log[|log| - 1].outcome == o then 1 else 0)
  }

  function LoggedRetries(log: seq<Entry>): nat {
    if log == [] then 0
    else
      var last := log[|log| - 1];
      LoggedRetries(log[..|log| - 1]) + (if last.outcome == Abandoned then |last.seen| else AllButLast(last.seen))
  }

  lemma {:induction false} LogIsCounted(log: seq<Entry>)
    ensures |Logged(log)| == |log| == Count(log, Delivered) + Count(log, Failed) + Count(log, Abandoned)
  {
    if log == [] {
    } else {
      LogIsCounted(log[..|log| - 1]);
    }
  }

  // All of seen were worth another attempt.
  ghost predicate AllTryAgain(seen: seq<Reply>) {
    forall k :: 0 <= k < |seen| ==> Retryable(seen[k])
  }

  // The replies end with a decisive one, which is a success or not.
  ghost predicate EndsWith(seen: seq<Reply>, good: bool) {
    && seen != [] && AllTryAgain(seen[..|seen| - 1])
    && (var last := seen[|seen| - 1]; if good then Successful(last) else !Successful(last) && !Retryable(last))
  }

  // The forwarding rule, of a finished job: delivered on a 2xx that follows only
  // retryable replies; failed when encoding failed, on a refusal after only
  // retryable replies, or when all attempts were used up; abandoned between two
  // attempts.
  ghost predicate FollowsRule(e: Env, x: Entry) {
    match x.outcome
    case Delivered => e.encodes(x.job) && EndsWith(x.seen, true) && |x.seen| <= e.retries + 1
    case Failed =>
      if !e.encodes(x.job) then x.seen == []
      else (EndsWith(x.seen, false) && |x.seen| <= e.retries + 1) || (AllTryAgain(x.seen) && |x.seen| == e.retries + 1)
    case Abandoned => e.encodes(x.job) && AllTryAgain(x.seen) && 1 <= |x.seen| <= e.retries
  }

  // The same, of a job in a worker's hands.
  ghost predicate WorkerFollowsRule(e: Env, w: WorkerPc) {
    match w
    case Posting(job, seen) => e.encodes(job) && AllTryAgain(seen) && |seen| <= e.retries
    case Noting(job, seen) => e.encodes(job) && AllTryAgain(seen) && 1 <= |seen| <= e.retries
    case Waiting(job, seen) => e.encodes(job) && AllTryAgain(seen) && 1 <= |seen| <= e.retries
    case Succeeding(job, seen) => FollowsRule(e, Entry(job, seen, Delivered))
    case Failing(job, seen) => FollowsRule(e, Entry(job, seen, Failed))
    case _ => true
  }

  // ---- invariants -----------------------------------------------------------

  // The reader has not yet recorded what its datagram comes to.
  predicate Fresh(r: ReaderPc) {
    r.Counting? || r.Judging? || r.Rejecting? || r.Missing? || r.Matching?
  }

  // The datagrams whose disposition has been recorded.
  function Settled(r: ReaderPc, arrived: seq<Datagram>): seq<Datagram> {
    if Fresh(r) && arrived != [] then arrived[..|arrived| - 1] else arrived
  }

  function One(b: bool): nat {
    if b then 1 else 0
  }

  ghost predicate ReaderInv(e: Env, r: ReaderPc, n: Tally, arrived: seq<Datagram>) {
    && (Fresh(r) ==> arrived != [] && arrived[|arrived| - 1] == r.d)
    && (r.Rejecting? ==> e.dispose(r.d) == Rejected)
    && (r.Missing? ==> e.dispose(r.d) == Unmatched)
    && (r.Matching? ==> e.dispose(r.d) == Accepted(r.job))
    && n.received + One(r.Counting?) == |arrived|
    && n.rejected == CountDisposed(e, Settled(r, arrived), true)
    && n.unmatched == CountDisposed(e, Settled(r, arrived), false)
    && n.decoded == |JobsOf(e, Settled(r, arrived))|
  }

  ghost predicate OfferInv(e: Env, r: ReaderPc, h: History) {
    && (!e.enabled ==> r == ReaderGone && h.offers == [])
    && Offered(h.offers) + (if r.Sending? then [r.job] else []) == JobsOf(e, Settled(r, h.arrived))
    && forall o :: o in h.offers ==> o.backlog <= e.capacity && (o.accepted <==> o.backlog < e.capacity)
  }

  ghost predicate QueueInv(e: Env, r: ReaderPc, queue: seq<Job>, queued: nat, h: History) {
    && h.taken + queue == OfferedAs(h.offers, true)
    && |queue| <= e.capacity
    && queued + One(r.Noticing?) == |OfferedAs(h.offers, true)|
  }

  ghost predicate RulesHold(e: Env, ws: seq<WorkerPc>, log: seq<Entry>) {
    && (forall i :: 0 <= i < |ws| ==> WorkerFollowsRule(e, ws[i]))
    && (forall x :: x in log ==> FollowsRule(e, x))
  }

  // What was taken from the queue is in the log or in somebody's hands.
  ghost predicate JobsHeld(ws: seq<WorkerPc>, taken: seq<Job>, log: seq<Entry>) {
    && multiset(taken) == multiset(Logged(log)) + HeldBag(ws)
    && (|ws| == 1 ==> taken == Logged(log) + Hand(ws[0]))
  }

  ghost predicate WorkerInv(e: Env, ws: seq<WorkerPc>, taken: seq<Job>, log: seq<Entry>) {
    && |ws| == (if e.enabled then e.workers else 0)
    && RulesHold(e, ws, log) && JobsHeld(ws, taken, log)
  }

  ghost predicate TallyInv(r: ReaderPc, ws: seq<WorkerPc>, n: Tally, h: History) {
    && n.forwarded == Count(h.log, Delivered)
    && n.failed + One(r.Dropping?) == Count(h.log, Failed) + |OfferedAs(h.offers, false)|
    && n.retries == LoggedRetries(h.log) + SumBy(ws, Noted)
  }

  ghost predicate ShutdownInv(e: Env, r: ReaderPc, ws: seq<WorkerPc>, queue: Channel, sd: Shutdown, log: seq<Entry>) {
    && (sd.connClosed <==> sd.closer != NotCalled)
    && (sd.readDone <==> r == Leaving || r == ReaderGone)
    && (r == ClosingReadDone ==> sd.connClosed)
    && (!e.enabled ==> r == ReaderGone)
    && (sd.closer !in {NotCalled, AwaitReader} ==> sd.readDone)
    && (queue.closed <==> sd.closer !in {NotCalled, AwaitReader, ClosingQueue})
    && (sd.waiter == NotStarted <==> !queue.closed)
    && (forall i :: 0 <= i < |ws| && (ws[i] == Finishing || ws[i] == WorkerGone) ==> queue == Channel([], true))
    && sd.waitGroup == One(r != ReaderGone) + SumBy(ws, Live)
    && (sd.waiter == DoneClosed ==> sd.waitGroup == 0)
    && (sd.closer in {CancelingNil, ReturnedNil, ReturnedErr} ==> sd.waiter == DoneClosed)
    && (sd.canceled <==> sd.closer in {ReturnedNil, AwaitDone, ReturnedErr})
    && (sd.closer !in {AwaitDone, ReturnedErr} ==> Count(log, Abandoned) == 0)
  }

  ghost predicate Inv(e: Env, s: State) {
    && !s.panicked
    && ReaderInv(e, s.reader, s.n, s.h.arrived)
    && OfferInv(e, s.reader, s.h)
    && QueueInv(e, s.reader, s.queue.items, s.n.queued, s.h)
    && WorkerInv(e, s.workers, s.h.taken, s.h.log)
    && TallyInv(s.reader, s.workers, s.n, s.h)
    && ShutdownInv(e, s.reader, s.workers, s.queue, s.sd, s.h.log)
  }

  // ---- the invariants hold at the start and along every step ------------------

  lemma {:induction false} IdleWorkers(n: nat)
    ensures SumBy(seq(n, i => Idle), Live) == n && SumBy(seq(n, i => Idle), Noted) == 0
    ensures HeldBag(seq(n, i => Idle)) == multiset{}
  {
    if n == 0 {
    } else {
      IdleWorkers(n - 1);
      assert seq(n, i => Idle)[..n - 1] == seq(n - 1, i => Idle);
    }
  }

  lemma StartReader(e: Env)
    ensures var s := Start(e);
            && ReaderInv(e, s.reader, s.n, s.h.arrived) && OfferInv(e, s.reader, s.h)
            && QueueInv(e, s.reader, s.queue.items, s.n.queued, s.h)
  {}

  lemma StartWorkers(e: Env)
    ensures var s := Start(e); WorkerInv(e, s.workers, s.h.taken, s.h.log) && TallyInv(s.reader, s.workers, s.n, s.h)
  {
    IdleWorkers(if e.enabled then e.workers else 0);
  }

  lemma StartShutdown(e: Env)
    ensures var s := Start(e); ShutdownInv(e, s.reader, s.workers, s.queue, s.sd, s.h.log) && !s.panicked
  {
    IdleWorkers(if e.enabled then e.workers else 0);
  }

  lemma StartInv(e: Env)
    ensures Inv(e, Start(e))
  {
    StartReader(e);
    StartWorkers(e);
    StartShutdown(e);
  }

  // -- the reader's steps

  // A datagram is settled by the step that leaves the fresh states.
  lemma SettledByReader(e: Env, s: State, a: ReadAction)
    requires CanRead(s, a) && (Fresh(s.reader) ==> s.h.arrived != [] && s.h.arrived[|s.h.arrived| - 1] == s.reader.d)
    ensures var t := DoRead(e, s, a); var before := Settled(s.reader, s.h.arrived);
            Settled(t.reader, t.h.arrived) == if Fresh(s.reader) && !Fresh(t.reader) then before + [s.reader.d] else before
  {}

  lemma ReaderByReader(e: Env, s: State, a: ReadAction)
    requires CanRead(s, a) && ReaderInv(e, s.reader, s.n, s.h.arrived)
    ensures var t := DoRead(e, s, a); var r := t.reader;
            && (Fresh(r) ==> t.h.arrived != [] && t.h.arrived[|t.h.arrived| - 1] == r.d)
            && (r.Rejecting? ==> e.dispose(r.d) == Rejected)
            && (r.Missing? ==> e.dispose(r.d) == Unmatched)
            && (r.Matching? ==> e.dispose(r.d) == Accepted(r.job))
            && (!s.reader.Sending? ==> (s.reader.Matching? <==> r.Sending?) && (r.Sending? ==> r.job == s.reader.job))
  {}

  lemma TallyByReader(e: Env, s: State, a: ReadAction)
    requires CanRead(s, a)
    ensures var t := DoRead(e, s, a);
            && t.n.received + One(t.reader.Counting?) + |s.h.arrived| == s.n.received + One(s.reader.Counting?) + |t.h.arrived|
            && t.n.rejected == s.n.rejected + One(s.reader.Rejecting?)
            && t.n.unmatched == s.n.unmatched + One(s.reader.Missing?)
            && t.n.decoded == s.n.decoded + One(s.reader.Matching?)
            && (Fresh(s.reader) && !Fresh(t.reader) <==> s.reader.Rejecting? || s.reader.Missing? || s.reader.Matching?)
  {}

  lemma DisposedGrows(e: Env, ds: seq<Datagram>, d: Datagram)
    ensures CountDisposed(e, ds + [d], true) == CountDisposed(e, ds, true) + One(e.dispose(d).Rejected?)
    ensures CountDisposed(e, ds + [d], false) == CountDisposed(e, ds, false) + One(e.dispose(d).Unmatched?)
    ensures JobsOf(e, ds + [d]) == JobsOf(e, ds) + (if e.dispose(d).Accepted? then [e.dispose(d).job] else [])
  {}

  lemma ReaderInvByReader(e: Env, s: State, a: ReadAction)
    requires CanRead(s, a) && ReaderInv(e, s.reader, s.n, s.h.arrived)
    ensures var t := DoRead(e, s, a); ReaderInv(e, t.reader, t.n, t.h.arrived)
  {
    var t, before := DoRead(e, s, a), Settled(s.reader, s.h.arrived);
    SettledByReader(e, s, a);
    ReaderByReader(e, s, a);
    TallyByReader(e, s, a);
    if Fresh(s.reader) && !Fresh(t.reader) {
      DisposedGrows(e, before, s.reader.d);
    }
  }

  lemma OfferGrows(offers: seq<Offer>, o: Offer)
    ensures Offered(offers + [o]) == Offered(offers) + [o.job]
    ensures OfferedAs(offers + [o], true) == OfferedAs(offers, true) + (if o.accepted then [o.job] else [])
    ensures OfferedAs(offers + [o], false) == OfferedAs(offers, false) + (if o.accepted then [] else [o.job])
  {}

  // The send or drop itself.
  lemma OfferingKeeps(e: Env, s: State, d: Datagram, job: Job)
    requires s.reader == Sending(d, job) && !s.queue.closed
    requires OfferInv(e, s.reader, s.h) && QueueInv(e, s.reader, s.queue.items, s.n.queued, s.h)
    ensures var t := Offering(e, s, d, job); OfferInv(e, t.reader, t.h) && QueueInv(e, t.reader, t.queue.items, t.n.queued, t.h)
  {}

  // Every other step of the reader leaves the queue and the offers alone.
  lemma ReaderFrame(e: Env, s: State, a: ReadAction)
    requires CanRead(s, a) && !s.reader.Sending?
    ensures var t := DoRead(e, s, a);
            && t.queue == s.queue && t.workers == s.workers && t.panicked == s.panicked
            && t.h.offers == s.h.offers && t.h.taken == s.h.taken && t.h.log == s.h.log
            && t.n.queued + One(t.reader.Noticing?) == s.n.queued + One(s.reader.Noticing?)
            && t.n.failed + One(t.reader.Dropping?) == s.n.failed + One(s.reader.Dropping?)
            && t.n.forwarded == s.n.forwarded && t.n.retries == s.n.retries
  {}

  lemma JobsSettle(e: Env, s: State, a: ReadAction)
    requires CanRead(s, a) && !s.reader.Sending? && ReaderInv(e, s.reader, s.n, s.h.arrived)
    ensures var t := DoRead(e, s, a);
            JobsOf(e, Settled(t.reader, t.h.arrived)) ==
              JobsOf(e, Settled(s.reader, s.h.arrived)) + (if t.reader.Sending? then [t.reader.job] else [])
  {
    var t := DoRead(e, s, a);
    SettledByReader(e, s, a);
    ReaderByReader(e, s, a);
    TallyByReader(e, s, a);
    if Fresh(s.reader) && !Fresh(t.reader) {
      DisposedGrows(e, Settled(s.reader, s.h.arrived), s.reader.d);
    }
  }

  lemma SendingSidesByReader(e: Env, s: State, a: ReadAction)
    requires CanRead(s, a) && (s.reader.Sending? ==> !s.queue.closed) && ReaderInv(e, s.reader, s.n, s.h.arrived)
    requires OfferInv(e, s.reader, s.h) && QueueInv(e, s.reader, s.queue.items, s.n.queued, s.h)
    ensures var t := DoRead(e, s, a); OfferInv(e, t.reader, t.h) && QueueInv(e, t.reader, t.queue.items, t.n.queued, t.h)
  {
    if s.reader.Sending? {
      OfferingKeeps(e, s, s.reader.d, s.reader.job);
    } else {
      ReaderFrame(e, s, a);
      JobsSettle(e, s, a);
    }
  }

  lemma TallyInvByReader(e: Env, s: State, a: ReadAction)
    requires CanRead(s, a) && (s.reader.Sending? ==> !s.queue.closed) && TallyInv(s.reader, s.workers, s.n, s.h)
    ensures var t := DoRead(e, s, a); TallyInv(t.reader, t.workers, t.n, t.h)
  {
    if s.reader.Sending? {
      OfferGrows(s.h.offers, Offer(s.reader.job, |s.queue.items|, |s.queue.items| < e.capacity));
    } else {
      ReaderFrame(e, s, a);
    }
  }

  lemma ShutdownInvByReader(e: Env, s: State, a: ReadAction)
    requires CanRead(s, a) && ShutdownInv(e, s.reader, s.workers, s.queue, s.sd, s.h.log)
    ensures var t := DoRead(e, s, a); ShutdownInv(e, t.reader, t.workers, t.queue, t.sd, t.h.log) && t.panicked == s.panicked
  {
    if !s.reader.Sending? { ReaderFrame(e, s, a); }
  }

  // -- the workers' steps

  lemma LogGrows(log: seq<Entry>, x: Entry)
    ensures Logged(log + [x]) == Logged(log) + [x.job]
    ensures forall o :: Count(log + [x], o) == Count(log, o) + One(x.outcome == o)
    ensures LoggedRetries(log + [x]) == LoggedRetries(log) + (if x.outcome == Abandoned then |x.seen| else AllButLast(x.seen))
  {}

  lemma AnswerKeepsRule(e: Env, job: Job, seen: seq<Reply>, r: Reply)
    requires e.encodes(job) && AllTryAgain(seen) && |seen| <= e.retries
    ensures WorkerFollowsRule(e, AfterReply(e, job, seen, r))
  {}

  lemma MovesByWorker(e: Env, s: State, i: nat, a: WorkAction)
    requires Enabled(s, W(i, a))
    ensures var t := DoWork(e, s, i, a);
            && t.workers == s.workers[i := t.workers[i]]
            && (a.Answer? ==> t.workers[i] == AfterReply(e, s.workers[i].job, s.workers[i].seen, a.r))
            && (a !in {CancelWait, RecordOutcome} ==> t.h.log == s.h.log)
  {}

  lemma RuleAtTheEnd(e: Env, s: State, i: nat, a: WorkAction)
    requires Enabled(s, W(i, a)) && WorkerFollowsRule(e, s.workers[i]) && a in {CancelWait, RecordOutcome}
    ensures var t := DoWork(e, s, i, a);
            t.workers[i] == Idle && forall x :: x in t.h.log ==> x in s.h.log || FollowsRule(e, x)
  {}

  // Each worker step keeps the forwarding rule, and what leaves the worker's
  // hands goes to the log.
  lemma RuleByWorker(e: Env, s: State, i: nat, a: WorkAction)
    requires Enabled(s, W(i, a)) && WorkerFollowsRule(e, s.workers[i])
    ensures var t := DoWork(e, s, i, a);
            && t.workers == s.workers[i := t.workers[i]] && WorkerFollowsRule(e, t.workers[i])
            && (forall x :: x in t.h.log ==> x in s.h.log || FollowsRule(e, x))
  {
    MovesByWorker(e, s, i, a);
    if a.Answer? {
      AnswerKeepsRule(e, s.workers[i].job, s.workers[i].seen, a.r);
    } else if a == CancelWait || a == RecordOutcome {
      RuleAtTheEnd(e, s, i, a);
    }
  }

  // A job moves from the queue to a hand, or from a hand to the log, or not at all.
  ghost predicate JobMoves(before: seq<Job>, after: seq<Job>, taken: seq<Job>, taken': seq<Job>, log: seq<Entry>, log': seq<Entry>) {
    if log' != log then |before| == 1 && after == [] && taken' == taken && |log'| == |log| + 1
                        && log' == log + [log'[|log|]] && log'[|log|].job == before[0]
    else if taken' != taken then before == [] && taken' == taken + after
    else before == after
  }

  lemma HandsByWorker(e: Env, s: State, i: nat, a: WorkAction)
    requires Enabled(s, W(i, a))
    ensures var t := DoWork(e, s, i, a);
            JobMoves(Hand(s.workers[i]), Hand(t.workers[i]), s.h.taken, t.h.taken, s.h.log, t.h.log)
  {}

  lemma Regroup(a: multiset<Job>, b: multiset<Job>, c: multiset<Job>)
    ensures a + (b + c) == a + c + b
  {}

  lemma SameBag(a: multiset<Job>, b: multiset<Job>, c: multiset<Job>)
    requires a + c == b + c
    ensures a == b
  {
    assert a == (a + c) - c && b == (b + c) - c;
  }

  lemma BagAfterMove(ws: seq<WorkerPc>, i: nat, w: WorkerPc, taken: seq<Job>, taken': seq<Job>, log: seq<Entry>, log': seq<Entry>)
    requires i < |ws| && multiset(taken) == multiset(Logged(log)) + HeldBag(ws)
    requires JobMoves(Hand(ws[i]), Hand(w), taken, taken', log, log')
    ensures multiset(taken') == multiset(Logged(log')) + HeldBag(ws[i := w])
  {
    HeldMove(ws, i, w);
    if log' != log {
      LogGrows(log, log'[|log|]);
      assert Hand(ws[i]) == [log'[|log|].job];
      assert multiset(Logged(log')) == multiset(Logged(log)) + multiset(Hand(ws[i]));
      assert HeldBag(ws) == HeldBag(ws[i := w]) + multiset(Hand(ws[i])) by { assert multiset(Hand(w)) == multiset{}; }
      Regroup(multiset(Logged(log)), HeldBag(ws[i := w]), multiset(Hand(ws[i])));
    } else if taken' != taken {
      assert multiset(taken') == multiset(taken) + multiset(Hand(w));
      assert HeldBag(ws[i := w]) == HeldBag(ws) + multiset(Hand(w)) by { assert multiset(Hand(ws[i])) == multiset{}; }
    } else {
      SameBag(HeldBag(ws[i := w]), HeldBag(ws), multiset(Hand(w)));
    }
  }

  lemma SingleWorkerMove(ws: seq<WorkerPc>, i: nat, w: WorkerPc, taken: seq<Job>, taken': seq<Job>, log: seq<Entry>, log': seq<Entry>)
    requires |ws| == 1 && i == 0 && taken == Logged(log) + Hand(ws[0])
    requires JobMoves(Hand(ws[0]), Hand(w), taken, taken', log, log')
    ensures taken' == Logged(log') + Hand(w)
  {}

  lemma RulesAfterMove(e: Env, ws: seq<WorkerPc>, i: nat, w: WorkerPc, log: seq<Entry>, log': seq<Entry>)
    requires i < |ws| && RulesHold(e, ws, log) && WorkerFollowsRule(e, w)
    requires forall x :: x in log' ==> x in log || FollowsRule(e, x)
    ensures RulesHold(e, ws[i := w], log')
  {}

  lemma HeldAfterMove(ws: seq<WorkerPc>, i: nat, w: WorkerPc, taken: seq<Job>, taken': seq<Job>, log: seq<Entry>, log': seq<Entry>)
    requires i < |ws| && JobsHeld(ws, taken, log) && JobMoves(Hand(ws[i]), Hand(w), taken, taken', log, log')
    ensures JobsHeld(ws[i := w], taken', log')
  {
    BagAfterMove(ws, i, w, taken, taken', log, log');
    if |ws| == 1 {
      SingleWorkerMove(ws, i, w, taken, taken', log, log');
    }
  }

  lemma WorkerInvByWorker(e: Env, s: State, i: nat, a: WorkAction)
    requires Enabled(s, W(i, a)) && WorkerInv(e, s.workers, s.h.taken, s.h.log)
    ensures var t := DoWork(e, s, i, a); WorkerInv(e, t.workers, t.h.taken, t.h.log)
  {
    var t := DoWork(e, s, i, a);
    RuleByWorker(e, s, i, a);
    HandsByWorker(e, s, i, a);
    RulesAfterMove(e, s.workers, i, t.workers[i], s.h.log, t.h.log);
    HeldAfterMove(s.workers, i, t.workers[i], s.h.taken, t.h.taken, s.h.log, t.h.log);
  }

  lemma QueueInvByWorker(e: Env, s: State, i: nat, a: WorkAction)
    requires Enabled(s, W(i, a)) && QueueInv(e, s.reader, s.queue.items, s.n.queued, s.h)
    ensures var t := DoWork(e, s, i, a); QueueInv(e, t.reader, t.queue.items, t.n.queued, t.h) && t.h.offers == s.h.offers
  {
    if a.Take? {
      assert s.h.taken + s.queue.items == s.h.taken + [s.queue.items[0]] + s.queue.items[1..];
    }
  }

  // What a worker step adds to the tally is what it adds to the log, and
  // retries are recorded while the job is in hand.
  ghost predicate TallyMoves(before: WorkerPc, after: WorkerPc, n: Tally, n': Tally, log: seq<Entry>, log': seq<Entry>) {
    if log' != log then
      && |log'| == |log| + 1 && log' == log + [log'[|log|]]
      && (var x := log'[|log|];
          && n'.forwarded == n.forwarded + One(x.outcome == Delivered)
          && n'.failed == n.failed + One(x.outcome == Failed)
          && n'.retries == n.retries && Noted(after) == 0
          && Noted(before) == if x.outcome == Abandoned then |x.seen| else AllButLast(x.seen))
    else n'.forwarded == n.forwarded && n'.failed == n.failed && n'.retries + Noted(before) == n.retries + Noted(after)
  }

  lemma TallyByWorker(e: Env, s: State, i: nat, a: WorkAction)
    requires Enabled(s, W(i, a)) && WorkerFollowsRule(e, s.workers[i])
    ensures var t := DoWork(e, s, i, a);
            && TallyMoves(s.workers[i], t.workers[i], s.n, t.n, s.h.log, t.h.log)
            && t.reader == s.reader && t.h.offers == s.h.offers && t.workers == s.workers[i := t.workers[i]]
  {}

  lemma TallyAfterMove(r: ReaderPc, ws: seq<WorkerPc>, i: nat, w: WorkerPc, n: Tally, n': Tally, h: History, h': History)
    requires i < |ws| && TallyInv(r, ws, n, h) && h'.offers == h.offers
    requires TallyMoves(ws[i], w, n, n', h.log, h'.log)
    ensures TallyInv(r, ws[i := w], n', h')
  {
    SumByMove(ws, i, w, Noted);
    if h'.log != h.log { LogGrows(h.log, h'.log[|h.log|]); }
  }

  lemma TallyInvByWorker(e: Env, s: State, i: nat, a: WorkAction)
    requires Enabled(s, W(i, a)) && TallyInv(s.reader, s.workers, s.n, s.h) && WorkerFollowsRule(e, s.workers[i])
    ensures var t := DoWork(e, s, i, a); TallyInv(t.reader, t.workers, t.n, t.h)
  {
    var t := DoWork(e, s, i, a);
    TallyByWorker(e, s, i, a);
    TallyAfterMove(s.reader, s.workers, i, t.workers[i], s.n, t.n, s.h, t.h);
  }

  lemma WaitGroupByWorker(e: Env, s: State, i: nat, a: WorkAction)
    requires Enabled(s, W(i, a))
    ensures var t := DoWork(e, s, i, a);
            && t.reader == s.reader && t.workers == s.workers[i := t.workers[i]] && t.panicked == s.panicked
            && t.sd == s.sd.(waitGroup := t.sd.waitGroup) && t.sd.waitGroup + Live(s.workers[i]) == s.sd.waitGroup + Live(t.workers[i])
            && Live(s.workers[i]) == 1
  {}

  lemma QueueByWorker(e: Env, s: State, i: nat, a: WorkAction)
    requires Enabled(s, W(i, a))
    ensures var t := DoWork(e, s, i, a);
            && t.queue.closed == s.queue.closed && (s.queue.items == [] ==> t.queue.items == [])
            && (t.workers[i] == Finishing || t.workers[i] == WorkerGone ==> s.workers[i] == Finishing || s.queue == Channel([], true))
  {}

  lemma LogByWorker(e: Env, s: State, i: nat, a: WorkAction)
    requires Enabled(s, W(i, a))
    ensures var t := DoWork(e, s, i, a);
            t.h.log == s.h.log || (|t.h.log| == |s.h.log| + 1 && t.h.log == s.h.log + [t.h.log[|s.h.log|]]
                                   && (t.h.log[|s.h.log|].outcome == Abandoned ==> s.sd.canceled))
  {}

  lemma ShutdownByWorker(e: Env, s: State, i: nat, a: WorkAction)
    requires Enabled(s, W(i, a))
    ensures var t := DoWork(e, s, i, a);
            && t.reader == s.reader && t.workers == s.workers[i := t.workers[i]] && t.panicked == s.panicked
            && t.queue.closed == s.queue.closed && (s.queue.items == [] ==> t.queue.items == [])
            && t.sd == s.sd.(waitGroup := t.sd.waitGroup) && t.sd.waitGroup + Live(s.workers[i]) == s.sd.waitGroup + Live(t.workers[i])
            && Live(s.workers[i]) == 1
            && (t.workers[i] == Finishing || t.workers[i] == WorkerGone ==> s.workers[i] == Finishing || s.queue == Channel([], true))
            && (t.h.log == s.h.log || (|t.h.log| == |s.h.log| + 1 && t.h.log == s.h.log + [t.h.log[|s.h.log|]]
                                       && (t.h.log[|s.h.log|].outcome == Abandoned ==> s.sd.canceled)))
  {
    WaitGroupByWorker(e, s, i, a);
    QueueByWorker(e, s, i, a);
    LogByWorker(e, s, i, a);
  }

  lemma ShutdownInvByWorker(e: Env, s: State, i: nat, a: WorkAction)
    requires Enabled(s, W(i, a)) && ShutdownInv(e, s.reader, s.workers, s.queue, s.sd, s.h.log)
    ensures var t := DoWork(e, s, i, a); ShutdownInv(e, t.reader, t.workers, t.queue, t.sd, t.h.log) && t.panicked == s.panicked
  {
    var t := DoWork(e, s, i, a);
    ShutdownByWorker(e, s, i, a);
    SumByMove(s.workers, i, t.workers[i], Live);
    SumByZero(s.workers, Live);
    assert s.sd.waitGroup > 0;
    if t.h.log != s.h.log { LogGrows(s.h.log, t.h.log[|s.h.log|]); }
  }

  // A zero wait group means that everyone has left.
  lemma AllGone(r: ReaderPc, ws: seq<WorkerPc>)
    requires One(r != ReaderGone) + SumBy(ws, Live) == 0
    ensures r == ReaderGone && forall i :: 0 <= i < |ws| ==> ws[i] == WorkerGone
  {}

  // -- the shutdown's steps

  lemma ShutdownInvByClose(e: Env, s: State, a: CloseAction)
    requires CanClose(s.sd, a) && ShutdownInv(e, s.reader, s.workers, s.queue, s.sd, s.h.log)
    ensures var t := DoClose(s, a); ShutdownInv(e, t.reader, t.workers, t.queue, t.sd, t.h.log)
  {}

  lemma InvByClose(e: Env, s: State, a: CloseAction)
    requires CanClose(s.sd, a) && Inv(e, s)
    ensures Inv(e, DoClose(s, a))
  {
    var t := DoClose(s, a);
    assert t.reader == s.reader && t.workers == s.workers && t.n == s.n && t.h == s.h && t.queue.items == s.queue.items;
    ShutdownInvByClose(e, s, a);
  }

  // ---- every reachable state ---------------------------------------------------

  lemma WorkerSideByReader(e: Env, s: State, a: ReadAction)
    requires CanRead(s, a)
    ensures var t := DoRead(e, s, a); t.workers == s.workers && t.h.taken == s.h.taken && t.h.log == s.h.log
  {
    if !s.reader.Sending? { ReaderFrame(e, s, a); }
  }

  lemma InvByReader(e: Env, s: State, a: ReadAction)
    requires CanRead(s, a) && Inv(e, s)
    ensures Inv(e, DoRead(e, s, a))
  {
    assert s.reader.Sending? ==> !s.queue.closed;
    ReaderInvByReader(e, s, a);
    SendingSidesByReader(e, s, a);
    TallyInvByReader(e, s, a);
    ShutdownInvByReader(e, s, a);
    WorkerSideByReader(e, s, a);
  }

  lemma ReaderSideByWorker(e: Env, s: State, i: nat, a: WorkAction)
    requires Enabled(s, W(i, a)) && ReaderInv(e, s.reader, s.n, s.h.arrived) && OfferInv(e, s.reader, s.h)
    ensures var t := DoWork(e, s, i, a); ReaderInv(e, t.reader, t.n, t.h.arrived) && OfferInv(e, t.reader, t.h)
  {}

  lemma InvByWorker(e: Env, s: State, i: nat, a: WorkAction)
    requires Enabled(s, W(i, a)) && Inv(e, s)
    ensures Inv(e, DoWork(e, s, i, a))
  {
    ReaderSideByWorker(e, s, i, a);
    WorkerInvByWorker(e, s, i, a);
    QueueInvByWorker(e, s, i, a);
    TallyInvByWorker(e, s, i, a);
    ShutdownInvByWorker(e, s, i, a);
  }

  lemma InvStep(e: Env, s: State, step: Step)
    requires Enabled(s, step) && Inv(e, s)
    ensures Inv(e, Do(e, s, step))
  {
    match step
    case R(a) => InvByReader(e, s, a);
    case W(i, a) => InvByWorker(e, s, i, a);
    case C(a) => InvByClose(e, s, a);
  }

  lemma {:induction false} InvRun(e: Env, s: State, steps: seq<Step>)
    requires CanRun(e, s, steps) && Inv(e, s)
    ensures Inv(e, After(e, s, steps))
    decreases |steps|
  {
    if steps == [] {
    } else {
      InvStep(e, s, steps[0]);
      InvRun(e, Do(e, s, steps[0]), steps[1..]);
    }
  }

  lemma ReachableInv(e: Env, s: State)
    requires Reachable(e, s)
    ensures Inv(e, s)
  {
    var steps :| CanRun(e, Start(e), steps) && After(e, Start(e), steps) == s;
    StartInv(e);
    InvRun(e, Start(e), steps);
  }
}

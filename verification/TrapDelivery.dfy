// What the trap service promises of the traps themselves: none is lost, they
// are dispatched in order and once, and each ends as its routes and the replies
// of its webhook demand.
module TrapDelivery {
  import opened TrapPacket
  import opened Retry
  import opened Counting
  import opened TrapPipeline
  import opened TrapInvariants
  import TrapRouter

  // ---- conservation --------------------------------------------------------

  function InHand(w: WorkerPc): nat {
    One(Busy(w))
  }

  lemma {:induction false} BagSize(ws: seq<WorkerPc>)
    ensures |HeldBag(ws)| == SumBy(ws, InHand)
  {
    if ws == [] {
    } else {
      BagSize(ws[..|ws| - 1]);
    }
  }

  // In every reachable state, under every interleaving: nothing that was
  // received, decoded or sent is lost, up to what is in somebody's hands.
  lemma TrapsAreConserved(e: Env, s: State)
    requires Reachable(e, s)
    ensures s.n.received == s.n.rejected + s.n.unmatched + s.n.decoded
              + One(s.reader.Judging? || s.reader.Rejecting? || s.reader.Missing? || s.reader.Matching?)
    ensures s.n.decoded == s.n.queued + |OfferedAs(s.h.offers, false)| + One(s.reader.Sending? || s.reader.Noticing?)
    ensures |OfferedAs(s.h.offers, true)| == |s.queue.items| + SumBy(s.workers, InHand)
              + Count(s.h.log, Delivered) + Count(s.h.log, Failed) + Count(s.h.log, Abandoned)
    ensures s.n.forwarded == Count(s.h.log, Delivered)
    ensures s.n.failed == Count(s.h.log, Failed) + |OfferedAs(s.h.offers, false)| - One(s.reader.Dropping?)
    ensures s.n.retries == LoggedRetries(s.h.log) + SumBy(s.workers, Noted)
  {
    ReachableInv(e, s);
    EveryDatagramIsDisposed(e, Settled(s.reader, s.h.arrived));
    OffersAreSentOrDropped(s.h.offers);
    assert |Offered(s.h.offers)| + One(s.reader.Sending?) == s.n.decoded;
    LogIsCounted(s.h.log);
    BagSize(s.workers);
    assert |multiset(s.h.taken)| == |s.h.taken|;
    assert |s.h.taken + s.queue.items| == |s.h.taken| + |s.queue.items|;
  }

  // ---- dispatch ---------------------------------------------------------------

  lemma SettledJobsAreFirst(e: Env, r: ReaderPc, arrived: seq<Datagram>)
    ensures JobsOf(e, Settled(r, arrived)) <= JobsOf(e, arrived)
  {}

  // Jobs are offered to the queue in the order their datagrams arrived.
  lemma OffersFollowArrival(e: Env, s: State)
    requires Reachable(e, s)
    ensures Offered(s.h.offers) <= JobsOf(e, s.h.arrived)
  {
    ReachableInv(e, s);
    SettledJobsAreFirst(e, s.reader, s.h.arrived);
    assert Offered(s.h.offers) <= JobsOf(e, Settled(s.reader, s.h.arrived));
  }

  // Jobs leave the queue in the order they were accepted, each ends up in one
  // worker's hands and then once in the log, the queue never exceeds its
  // capacity, and a trap is dropped only when it is full.
  lemma DispatchIsFifoAndExactlyOnce(e: Env, s: State)
    requires Reachable(e, s)
    ensures s.h.taken + s.queue.items == OfferedAs(s.h.offers, true)
    ensures multiset(s.h.taken) == multiset(Logged(s.h.log)) + HeldBag(s.workers)
    ensures |s.queue.items| <= e.capacity
    ensures forall o :: o in s.h.offers && !o.accepted ==> o.backlog == e.capacity
  {
    ReachableInv(e, s);
  }

  lemma AllButTheLast(seen: seq<Reply>)
    requires seen != []
    ensures AllTryAgain(seen[..|seen| - 1]) <==> forall k :: 0 <= k < |seen| - 1 ==> Retryable(seen[k])
  {
    var front := seen[..|seen| - 1];
    assert forall k :: 0 <= k < |front| ==> front[k] == seen[k];
    if AllTryAgain(front) {
      forall k | 0 <= k < |seen| - 1 ensures Retryable(seen[k]) { assert Retryable(front[k]); }
    }
  }

  // The forwarding rule, read off the last reply.
  lemma RuleInCodes(e: Env, x: Entry)
    requires FollowsRule(e, x)
    ensures |x.seen| <= e.retries + 1 && (x.seen == [] <==> !e.encodes(x.job)) && (x.seen == [] ==> x.outcome == Failed)
    ensures forall k :: 0 <= k < |x.seen| - 1 ==> Retryable(x.seen[k])
    ensures x.seen != [] ==>
              var last := x.seen[|x.seen| - 1];
              && (x.outcome == Delivered <==> Successful(last))
              && (x.outcome == Failed && Retryable(last) ==> |x.seen| == e.retries + 1)
              && (x.outcome == Abandoned ==> Retryable(last) && |x.seen| <= e.retries)
  {
    if x.seen != [] { AllButTheLast(x.seen); }
  }

  // Every outcome in the log is the one its replies demand: there are none exactly
  // when the payload could not be encoded; all but the last are
  // network failures, 429 or 5xx; a delivery ends with a 2xx; a failure does not,
  // and ends with a retryable reply only when all attempts were used up; an
  // abandoned job had attempts left.
  lemma OutcomesFollowTheRule(e: Env, s: State, x: Entry)
    requires Reachable(e, s) && x in s.h.log
    ensures FollowsRule(e, x)
    ensures |x.seen| <= e.retries + 1 && (x.seen == [] <==> !e.encodes(x.job)) && (x.seen == [] ==> x.outcome == Failed)
    ensures forall k :: 0 <= k < |x.seen| - 1 ==>
              x.seen[k].NetworkError? || (x.seen[k].Status? && (x.seen[k].code == 429 || x.seen[k].code >= 500))
    ensures x.seen != [] ==>
              var last := x.seen[|x.seen| - 1];
              var again := last.NetworkError? || (last.Status? && (last.code == 429 || last.code >= 500));
              && (x.outcome == Delivered <==> last.Status? && 200 <= last.code <= 299)
              && (x.outcome == Failed && again ==> |x.seen| == e.retries + 1)
              && (x.outcome == Abandoned ==> again && |x.seen| <= e.retries)
  {
    ReachableInv(e, s);
    RuleInCodes(e, x);
  }

  lemma FrontOfFront(a: seq<Job>, b: seq<Job>, c: seq<Job>)
    ensures a <= a + b + c
  {}

  // With one worker the outcomes come in the order of acceptance.
  lemma OneWorkerKeepsOrder(e: Env, s: State)
    requires Reachable(e, s) && e.enabled && e.workers == 1
    ensures Logged(s.h.log) <= OfferedAs(s.h.offers, true)
  {
    ReachableInv(e, s);
    FrontOfFront(Logged(s.h.log), Hand(s.workers[0]), s.queue.items);
  }

  // One forwarding run on its own, given the replies that a logged job met and
  // then anything, and the cancellation that ended it, if any, has the outcome
  // that the interleaved service logged, and as many posts and retries.
  lemma LogAgreesWithForwarding(e: Env, s: State, x: Entry, reply: nat -> Reply, canceled: nat -> bool)
    requires Reachable(e, s) && x in s.h.log
    requires forall k :: 0 <= k < |x.seen| ==> reply(k) == x.seen[k]
    requires forall k :: 0 <= k < |x.seen| - 1 ==> !canceled(k)
    requires x.outcome == Abandoned && x.seen != [] ==> canceled(|x.seen| - 1)
    ensures ForwardOutcome(e.encodes(x.job), reply, canceled, e.retries) == x.outcome
    ensures ForwardPosts(e.encodes(x.job), reply, canceled, e.retries)
            == |x.seen| - One(x.seen != [] && x.seen[|x.seen| - 1].RequestError?)
    ensures ForwardRetries(e.encodes(x.job), reply, canceled, e.retries)
            == if x.outcome == Abandoned then |x.seen| else AllButLast(x.seen)
  {
    OutcomesFollowTheRule(e, s, x);
  }

  lemma {:induction false} JobsComeFromDatagrams(e: Env, ds: seq<Datagram>, job: Job)
    requires job in JobsOf(e, ds)
    ensures exists d :: d in ds && e.dispose(d) == Accepted(job)
  {
    var front, last := ds[..|ds| - 1], ds[|ds| - 1];
    if e.dispose(last) == Accepted(job) {
      assert last in ds;
    } else {
      JobsComeFromDatagrams(e, front, job);
      var d :| d in front && e.dispose(d) == Accepted(job);
      assert d in ds;
    }
  }

  lemma {:induction false} SentIsOffered(offers: seq<Offer>, job: Job)
    requires job in OfferedAs(offers, true)
    ensures job in Offered(offers)
  {
    if job in OfferedAs(offers[..|offers| - 1], true) { SentIsOffered(offers[..|offers| - 1], job); }
  }

  lemma {:induction false} LoggedHolds(log: seq<Entry>, x: Entry)
    requires x in log
    ensures x.job in Logged(log)
  {
    if x != log[|log| - 1] { LoggedHolds(log[..|log| - 1], x); }
  }

  // The job is what the route file makes of the datagram.
  ghost predicate RoutedTo(c: TrapConfig, lib: TrapRouter.Library, file: seq<TrapRouter.RouteConfig>, d: Datagram, job: Job)
    requires d.Decoded?
  {
    var oid := RoutingOid(d.packet);
    || (exists i: nat :: TrapRouter.Chosen(lib, file, d.sourceIp, oid, i) && SendsTo(d, job, file[i].targetUrl, file[i].sourceCidr))
    || (TrapRouter.NoneMatches(lib, file, d.sourceIp, oid) && c.defaultTarget != "" && SendsTo(d, job, c.defaultTarget, ""))
  }

  lemma AcceptedIsRouted(c: TrapConfig, lib: TrapRouter.Library, file: seq<TrapRouter.RouteConfig>, d: Datagram)
    requires TrapRouter.AnswersByFile(lib, file, c.routes, c.defaultTarget) && Dispose(c, d).Accepted?
    ensures Admitted(c, d) && RoutedTo(c, lib, file, d, Dispose(c, d).job)
  {
    RejectedExactlyWhen(c, d);
    AcceptedJobsFollowTheFile(c, lib, file, d);
    var oid := RoutingOid(d.packet);
    var answer := TrapRouter.Lookup(c.routes, c.defaultTarget, d.sourceIp, oid);
    assert TrapRouter.NoneMatches(lib, file, d.sourceIp, oid) || exists i: nat :: TrapRouter.Chosen(lib, file, d.sourceIp, oid, i);
  }

  lemma LoggedJobsArrived(e: Env, s: State, x: Entry) returns (d: Datagram)
    requires Reachable(e, s) && x in s.h.log
    ensures d in s.h.arrived && e.dispose(d) == Accepted(x.job)
  {
    ReachableInv(e, s);
    DispatchIsFifoAndExactlyOnce(e, s);
    LoggedHolds(s.h.log, x);
    assert x.job in multiset(Logged(s.h.log)) && x.job in multiset(s.h.taken);
    assert x.job in OfferedAs(s.h.offers, true);
    SentIsOffered(s.h.offers, x.job);
    OffersFollowArrival(e, s);
    JobsComeFromDatagrams(e, s.h.arrived, x.job);
    d :| d in s.h.arrived && e.dispose(d) == Accepted(x.job);
  }

  // Over routes loaded from a file, every outcome in the log is for the target
  // and the payload that the file's longest-prefix rule gives to some datagram
  // that arrived and was admitted.
  lemma EveryOutcomeFollowsTheRoutes(e: Env, s: State, c: TrapConfig, lib: TrapRouter.Library, file: seq<TrapRouter.RouteConfig>, x: Entry)
    requires Reachable(e, s) && x in s.h.log
    requires TrapRouter.AnswersByFile(lib, file, c.routes, c.defaultTarget) && forall d :: e.dispose(d) == Dispose(c, d)
    ensures exists d :: d in s.h.arrived && Admitted(c, d) && RoutedTo(c, lib, file, d, x.job)
  {
    var d := LoggedJobsArrived(e, s, x);
    AcceptedIsRouted(c, lib, file, d);
    assert RoutedTo(c, lib, file, d, x.job);
  }
}

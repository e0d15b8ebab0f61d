// Forwarding one trap: attempts, exponential backoff in int64 nanoseconds, and
// cancellation, against an arbitrary sequence of webhook replies.
module Retry {
  import opened Counting
  import S = Stats

  // RequestError: the request could not even be built.
  datatype Reply = Status(code: int) | NetworkError | RequestError

  // The documented classes of replies: any 2xx is a success; network failures,
  // 429 and 5xx are worth another attempt.
  predicate Successful(r: Reply) {
    r.Status? && 200 <= r.code <= 299
  }

  predicate Retryable(r: Reply) {
    r.NetworkError? || (r.Status? && (r.code == 429 || r.code >= 500))
  }

  datatype Verdict = Good | Bad | TryAgain

  function Judge(r: Reply): (v: Verdict)
    ensures v == Good <==> Successful(r)
    ensures v == TryAgain <==> Retryable(r)
  {
    match r
    case Status(code) =>
      if 200 <= code < 300 then Good
      else if code < 500 && code != 429 then Bad
      else TryAgain
    case NetworkError => TryAgain
    case RequestError => Bad
  }

  datatype Outcome = Delivered | Failed | Abandoned

  // ---- backoff ------------------------------------------------------------

  const MAX_INT64 := 0x7FFF_FFFF_FFFF_FFFF

  function Wrap64(x: int): (r: int)
    ensures -MAX_INT64 - 1 <= r <= MAX_INT64
    ensures -MAX_INT64 - 1 <= x <= MAX_INT64 ==> r == x
  {
    (x + 0x8000_0000_0000_0000) % 0x1_0000_0000_0000_0000 - 0x8000_0000_0000_0000
  }

  function Pow2(n: nat): (r: nat)
    ensures r >= 1
  {
    if n == 0 then 1 else 2 * Pow2(n - 1)
  }

  const HUNDRED_MS := 100_000_000

  // time.Duration(1<<attempt) * 100 * time.Millisecond, on int64.
  function Delay(attempt: nat): int {
    var shifted := if attempt < 64 then Wrap64(Pow2(attempt)) else 0;
    Wrap64(Wrap64(shifted * 100) * 1_000_000)
  }

  // The total of the first n delays.
  function TotalDelay(n: nat): int {
    if n == 0 then 0 else TotalDelay(n - 1) + Delay(n - 1)
  }

  lemma {:induction false} Pow2Monotone(a: nat, b: nat)
    requires a <= b
    ensures Pow2(a) <= Pow2(b)
  {
    if a < b { Pow2Monotone(a, b - 1); }
  }

  lemma Pow2Of36()
    ensures Pow2(36) == 68_719_476_736
  {
    assert Pow2(9) == 512 by { assert Pow2(4) == 16; assert Pow2(7) == 128; }
    assert Pow2(18) == 262_144 by { assert Pow2(12) == 4096; assert Pow2(15) == 32_768; }
    assert Pow2(27) == 134_217_728 by { assert Pow2(21) == 2_097_152; assert Pow2(24) == 16_777_216; }
    assert Pow2(30) == 1_073_741_824;
    assert Pow2(33) == 8_589_934_592;
  }

  lemma DelayIsExactExactlyWhen(attempt: nat)
    ensures Delay(attempt) == Pow2(attempt) * HUNDRED_MS <==> attempt <= 36
  {
    Pow2Of36();
    if attempt <= 36 {
      Pow2Monotone(attempt, 36);
    } else {
      Pow2Monotone(37, attempt);
      assert Pow2(37) == 2 * Pow2(36);
    }
  }

  // No backoff of a service with R retries wraps around exactly when R <= 37.
  lemma BackoffIsExactExactlyWhen(retries: nat)
    ensures (forall a: nat :: a < retries ==> Delay(a) == Pow2(a) * HUNDRED_MS) <==> retries <= 37
  {
    if retries > 37 {
      DelayIsExactExactlyWhen(37);
    } else {
      forall a: nat | a < retries ensures Delay(a) == Pow2(a) * HUNDRED_MS {
        DelayIsExactExactlyWhen(a);
      }
    }
  }

  // The first delay that does not fit: with 38 retries the last wait is negative,
  // so its timer fires at once.
  lemma LastOf38DelaysIsNegative()
    ensures Delay(37) == -4_702_848_726_509_551_616
  {
    Pow2Of36();
    assert Pow2(37) == 2 * Pow2(36);
  }

  // Up to there, n waits add up to (2^n - 1) times 100 ms.
  lemma {:induction false} TotalDelayIsGeometric(n: nat)
    requires n <= 37
    ensures TotalDelay(n) == (Pow2(n) - 1) * HUNDRED_MS
  {
    if n == 0 {
    } else {
      TotalDelayIsGeometric(n - 1);
      DelayIsExactExactlyWhen(n - 1);
    }
  }

  // ---- forwarding ----------------------------------------------------------

  // The first attempt from `from` on whose reply settles the matter; retries + 1 if none does.
  function FirstDecisive(reply: nat -> Reply, from: nat, retries: nat): (k: nat)
    requires from <= retries + 1
    ensures from <= k <= retries + 1
    ensures forall a :: from <= a < k ==> Retryable(reply(a))
    ensures k <= retries ==> !Retryable(reply(k))
    decreases retries + 1 - from
  {
    if from > retries || Judge(reply(from)) != TryAgain then from else FirstDecisive(reply, from + 1, retries)
  }

  // The first of the waits from..n that cancellation ends; n if none is.
  function FirstCanceled(canceled: nat -> bool, from: nat, n: nat): (c: nat)
    requires from <= n
    ensures from <= c <= n
    ensures forall a :: from <= a < c ==> !canceled(a)
    ensures c < n ==> canceled(c)
    decreases n - from
  {
    if from == n || canceled(from) then from else FirstCanceled(canceled, from + 1, n)
  }

  // Waits happen after each undecided attempt but the last.
  function Waits(reply: nat -> Reply, retries: nat): nat {
    Min(FirstDecisive(reply, 0, retries), retries)
  }

  // What forwarding comes to: reply(a) answers attempt a, and canceled(a) says
  // that the wait after it ends by cancellation.
  function OutcomeOf(reply: nat -> Reply, canceled: nat -> bool, retries: nat): Outcome {
    var k, w := FirstDecisive(reply, 0, retries), Waits(reply, retries);
    if FirstCanceled(canceled, 0, w) < w then Abandoned
    else if k <= retries && Judge(reply(k)) == Good then Delivered
    else Failed
  }

  // The posts made: one per attempt up to the end, unless building the last
  // request failed.
  function PostsOf(reply: nat -> Reply, canceled: nat -> bool, retries: nat): nat {
    var k, w := FirstDecisive(reply, 0, retries), Waits(reply, retries);
    var c := FirstCanceled(canceled, 0, w);
    if c < w then c + 1 else if k > retries then retries + 1 else if reply(k).RequestError? then k else k + 1
  }

  function RetriesOf(reply: nat -> Reply, canceled: nat -> bool, retries: nat): nat {
    var w := Waits(reply, retries);
    var c := FirstCanceled(canceled, 0, w);
    if c < w then c + 1 else w
  }

  // How far the attempts have come: all before `attempt` were undecided, and
  // no wait so far was canceled.
  ghost predicate Pending(reply: nat -> Reply, canceled: nat -> bool, retries: nat, attempt: nat) {
    && attempt <= FirstDecisive(reply, 0, retries)
    && Min(attempt, retries) <= FirstCanceled(canceled, 0, Waits(reply, retries))
  }

  lemma SettledAt(reply: nat -> Reply, canceled: nat -> bool, retries: nat, attempt: nat)
    requires Pending(reply, canceled, retries, attempt)
    requires attempt <= retries ==> Judge(reply(attempt)) != TryAgain
    ensures FirstDecisive(reply, 0, retries) == attempt
    ensures FirstCanceled(canceled, 0, Waits(reply, retries)) == Waits(reply, retries) == Min(attempt, retries)
  {}

  lemma WaitingAt(reply: nat -> Reply, canceled: nat -> bool, retries: nat, attempt: nat)
    requires Pending(reply, canceled, retries, attempt) && attempt <= retries && Judge(reply(attempt)) == TryAgain
    ensures attempt < retries && canceled(attempt) ==> FirstCanceled(canceled, 0, Waits(reply, retries)) == attempt < Waits(reply, retries)
    ensures attempt == retries || !canceled(attempt) ==> Pending(reply, canceled, retries, attempt + 1)
  {}

  // The attempts, up to where the outcome is known.
  method Attempt(stats: S.Stats, retries: nat, reply: nat -> Reply, canceled: nat -> bool)
    returns (o: Outcome, posts: nat, slept: int)
    modifies stats`retries
    ensures o == OutcomeOf(reply, canceled, retries) && posts == PostsOf(reply, canceled, retries)
    ensures slept == TotalDelay(FirstCanceled(canceled, 0, Waits(reply, retries)))
    ensures stats.retries == old(stats.retries) + RetriesOf(reply, canceled, retries)
  {
    posts, slept := 0, 0;
    var attempt := 0;
    while attempt <= retries
      invariant attempt <= retries + 1 && Pending(reply, canceled, retries, attempt)
      invariant posts == attempt && slept == TotalDelay(Min(attempt, retries))
      invariant stats.retries == old(stats.retries) + Min(attempt, retries)
    {
      var r := reply(attempt);
      if r.RequestError? {
        SettledAt(reply, canceled, retries, attempt);
        return Failed, posts, slept;
      }
      posts := posts + 1;
      if Judge(r) != TryAgain {
        SettledAt(reply, canceled, retries, attempt);
        return if Judge(r) == Good then Delivered else Failed, posts, slept;
      }
      WaitingAt(reply, canceled, retries, attempt);
      if attempt < retries {
        stats.RecordTrapRetry();
        if canceled(attempt) {
          return Abandoned, posts, slept;
        }
        slept := slept + Delay(attempt);
      }
      attempt := attempt + 1;
    }
    SettledAt(reply, canceled, retries, attempt);
    return Failed, posts, slept;
  }

  // The same for a whole job, which fails before any attempt when its payload
  // cannot be encoded.
  function ForwardOutcome(encodes: bool, reply: nat -> Reply, canceled: nat -> bool, retries: nat): Outcome {
    if encodes then OutcomeOf(reply, canceled, retries) else Failed
  }

  function ForwardPosts(encodes: bool, reply: nat -> Reply, canceled: nat -> bool, retries: nat): nat {
    if encodes then PostsOf(reply, canceled, retries) else 0
  }

  function ForwardRetries(encodes: bool, reply: nat -> Reply, canceled: nat -> bool, retries: nat): nat {
    if encodes then RetriesOf(reply, canceled, retries) else 0
  }

  function AfterForward(c: S.Counters, o: Outcome, retries: nat, route: string, duration: int): S.Counters {
    var r := c.(retries := c.retries + retries);
    match o
    case Delivered => S.AfterForwardSuccess(r, route, duration)
    case Failed => S.AfterForwardFailure(r, route)
    case Abandoned => r
  }

  // One job: exactly one success or failure is recorded, unless the job is
  // abandoned in a wait, which records nothing beyond its retries.
  method Forward(stats: S.Stats, route: string, retries: nat, encodes: bool, reply: nat -> Reply, canceled: nat -> bool, duration: int)
    returns (o: Outcome, posts: nat, slept: int)
    modifies stats
    ensures o == ForwardOutcome(encodes, reply, canceled, retries) && posts == ForwardPosts(encodes, reply, canceled, retries)
    ensures slept == if encodes then TotalDelay(FirstCanceled(canceled, 0, Waits(reply, retries))) else 0
    ensures stats.View() == AfterForward(old(stats.View()), o, ForwardRetries(encodes, reply, canceled, retries), route, duration)
  {
    if !encodes {
      stats.RecordTrapForwardFailure(route);
      return Failed, 0, 0;
    }
    o, posts, slept := Attempt(stats, retries, reply, canceled);
    match o {
      case Delivered => stats.RecordTrapForwardSuccess(route, duration);
      case Failed => stats.RecordTrapForwardFailure(route);
      case Abandoned =>
    }
  }

  // Without cancellation and request errors, success is recorded exactly when
  // some reply among the first retries + 1 has a 2xx status and all before it
  // are network failures, 429 or 5xx; a job fails after one post exactly when its
  // first reply has any other status, or there is no retry left for it. Posts
  // stay within retries + 1 and exceed the recorded retries by one, or equal them
  // when the job was abandoned.
  lemma ForwardingRule(reply: nat -> Reply, canceled: nat -> bool, retries: nat)
    requires forall a :: !reply(a).RequestError?
    ensures (forall a :: !canceled(a)) ==>
              (OutcomeOf(reply, canceled, retries) == Delivered <==>
                exists k: nat :: k <= retries && reply(k).Status? && 200 <= reply(k).code <= 299
                  && forall a :: 0 <= a < k ==> reply(a).NetworkError? || reply(a).code == 429 || reply(a).code >= 500)
    ensures (forall a :: !canceled(a)) ==>
              (OutcomeOf(reply, canceled, retries) == Failed && PostsOf(reply, canceled, retries) == 1 <==>
                || (reply(0).Status? && reply(0).code < 500 && reply(0).code != 429 && !(200 <= reply(0).code <= 299))
                || (retries == 0 && !(reply(0).Status? && 200 <= reply(0).code <= 299)))
    ensures (forall a :: !canceled(a)) ==> OutcomeOf(reply, canceled, retries) != Abandoned
    ensures 1 <= PostsOf(reply, canceled, retries) <= retries + 1
    ensures RetriesOf(reply, canceled, retries) ==
              PostsOf(reply, canceled, retries) - (if OutcomeOf(reply, canceled, retries) == Abandoned then 0 else 1)
  {}

  // The waits of one forwarding add up to the geometric total of the retries it
  // recorded; an abandoned job's last wait was cut short and is not counted.
  lemma BackoffFollowsRetries(reply: nat -> Reply, canceled: nat -> bool, retries: nat)
    requires retries <= 37
    ensures var waits := RetriesOf(reply, canceled, retries) - (if OutcomeOf(reply, canceled, retries) == Abandoned then 1 else 0);
            waits >= 0 && TotalDelay(FirstCanceled(canceled, 0, Waits(reply, retries))) == (Pow2(waits) - 1) * HUNDRED_MS
  {
    TotalDelayIsGeometric(FirstCanceled(canceled, 0, Waits(reply, retries)));
  }
}

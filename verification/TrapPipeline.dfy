// The trap service as a state machine. One reader, a bounded queue, any number
// of workers and the shutdown run as interleaved atomic steps: every channel
// operation, every record call and every answer of the surroundings is one.
module TrapPipeline {
  import opened TrapPacket
  import opened Retry

  // dispose decides on one datagram; it is TrapPacket.Dispose over the loaded routes.
  // encodes says whether a job's payload can be encoded.
  datatype Env = Env(
    dispose: Datagram -> Disposition, encodes: Job -> bool, capacity: nat, workers: nat, retries: nat, enabled: bool)

  // Where the read loop is; a state that holds a datagram is about to make the
  // step it is named for.
  datatype ReaderPc =
    | Reading
    | Counting(d: Datagram)
    | Judging(d: Datagram)
    | Rejecting(d: Datagram)
    | Missing(d: Datagram)
    | Matching(d: Datagram, job: Job)
    | Sending(d: Datagram, job: Job)
    | Noticing(d: Datagram)
    | Dropping(d: Datagram, job: Job)
    | Answering(d: Datagram)
    | ClosingReadDone
    | Leaving
    | ReaderGone

  // Where a worker is; seen holds the replies to its job so far.
  datatype WorkerPc =
    | Idle
    | Encoding(job: Job)
    | Posting(job: Job, seen: seq<Reply>)
    | Noting(job: Job, seen: seq<Reply>)
    | Waiting(job: Job, seen: seq<Reply>)
    | Succeeding(job: Job, seen: seq<Reply>)
    | Failing(job: Job, seen: seq<Reply>)
    | Finishing
    | WorkerGone

  datatype CloserPc =
    | NotCalled | AwaitReader | ClosingQueue | Selecting
    | CancelingNil | CancelingErr | AwaitDone | ReturnedNil | ReturnedErr

  // The goroutine that waits for all others and then closes done.
  datatype WaiterPc = NotStarted | OnWaitGroup | DoneClosed

  // History: an attempted send with the queue length it met, and an outcome.
  datatype Offer = Offer(job: Job, backlog: nat, accepted: bool)
  datatype Entry = Entry(job: Job, seen: seq<Reply>, outcome: Outcome)

  datatype Channel = Channel(items: seq<Job>, closed: bool)

  datatype Shutdown = Shutdown(connClosed: bool, readDone: bool, canceled: bool, waitGroup: int, waiter: WaiterPc, closer: CloserPc)

  // The trap counters of the statistics.
  datatype Tally = Tally(received: nat, rejected: nat, unmatched: nat, decoded: nat, queued: nat, forwarded: nat, failed: nat, retries: nat)

  datatype History = History(arrived: seq<Datagram>, offers: seq<Offer>, taken: seq<Job>, log: seq<Entry>, answered: seq<Datagram>)

  datatype State = State(
    reader: ReaderPc, workers: seq<WorkerPc>, queue: Channel, sd: Shutdown, n: Tally, h: History, panicked: bool)

  // The state after Start, or of a service with traps disabled.
  function Start(e: Env): State {
    State(if e.enabled then Reading else ReaderGone,
          seq(if e.enabled then e.workers else 0, i => Idle),
          Channel([], false),
          Shutdown(false, !e.enabled, false, if e.enabled then e.workers + 1 else 0, NotStarted, NotCalled),
          Tally(0, 0, 0, 0, 0, 0, 0, 0), History([], [], [], [], []), false)
  }

  // ---- steps ---------------------------------------------------------------

  datatype ReadAction = Receive(d: Datagram) | ReadFailure | ReadClosed | Advance

  datatype WorkAction = Take | FindDrained | Encode | Answer(r: Reply) | NoteRetry | Timer | CancelWait | RecordOutcome | Leave

  datatype CloseAction = CloseConn | SeeReadDone | CloseQueue | WaiterStep | PickDone | Deadline | Cancel | FinishErr

  datatype Step = R(read: ReadAction) | W(i: nat, work: WorkAction) | C(close: CloseAction)

  predicate CanRead(s: State, a: ReadAction) {
    match a
    case Receive(_) => s.reader == Reading && !s.sd.connClosed
    case ReadFailure => s.reader == Reading && !s.sd.connClosed
    case ReadClosed => s.reader == Reading && s.sd.connClosed
    case Advance => s.reader != Reading && s.reader != ReaderGone
  }

  predicate CanWork(s: State, w: WorkerPc, a: WorkAction) {
    match a
    case Take => w == Idle && s.queue.items != []
    case FindDrained => w == Idle && s.queue.items == [] && s.queue.closed
    case Encode => w.Encoding?
    case Answer(_) => w.Posting?
    case NoteRetry => w.Noting?
    case Timer => w.Waiting?
    case CancelWait => w.Waiting? && s.sd.canceled
    case RecordOutcome => w.Succeeding? || w.Failing?
    case Leave => w == Finishing
  }

  predicate CanClose(sd: Shutdown, a: CloseAction) {
    match a
    case CloseConn => sd.closer == NotCalled
    case SeeReadDone => sd.closer == AwaitReader && sd.readDone
    case CloseQueue => sd.closer == ClosingQueue
    case WaiterStep => sd.waiter == OnWaitGroup && sd.waitGroup == 0
    case PickDone => sd.closer == Selecting && sd.waiter == DoneClosed
    case Deadline => sd.closer == Selecting
    case Cancel => sd.closer == CancelingNil || sd.closer == CancelingErr
    case FinishErr => sd.closer == AwaitDone && sd.waiter == DoneClosed
  }

  predicate Enabled(s: State, step: Step) {
    match step
    case R(a) => CanRead(s, a)
    case W(i, a) => i < |s.workers| && CanWork(s, s.workers[i], a)
    case C(a) => CanClose(s.sd, a)
  }

  function AfterHandling(d: Datagram): ReaderPc {
    if d.Decoded? && d.packet.pduType == InformRequest then Answering(d) else Reading
  }

  function AfterDisposing(e: Env, d: Datagram): ReaderPc {
    match e.dispose(d)
    case Rejected => Rejecting(d)
    case Unmatched => Missing(d)
    case Accepted(job) => Matching(d, job)
  }

  // The select of the read loop: send when there is room, else drop; sending on
  // a closed channel panics.
  function Offering(e: Env, s: State, d: Datagram, job: Job): State {
    var backlog := |s.queue.items|;
    if s.queue.closed then s.(panicked := true)
    else if backlog < e.capacity then
      s.(reader := Noticing(d), queue := s.queue.(items := s.queue.items + [job]),
         h := s.h.(offers := s.h.offers + [Offer(job, backlog, true)]))
    else s.(reader := Dropping(d, job), h := s.h.(offers := s.h.offers + [Offer(job, backlog, false)]))
  }

  function Advanced(e: Env, s: State): State {
    match s.reader
    case Reading => s
    case Counting(d) => s.(reader := Judging(d), n := s.n.(received := s.n.received + 1))
    case Judging(d) => s.(reader := AfterDisposing(e, d))
    case Rejecting(d) => s.(reader := Reading, n := s.n.(rejected := s.n.rejected + 1))
    case Missing(d) => s.(reader := Reading, n := s.n.(unmatched := s.n.unmatched + 1))
    case Matching(d, job) => s.(reader := Sending(d, job), n := s.n.(decoded := s.n.decoded + 1))
    case Sending(d, job) => Offering(e, s, d, job)
    case Noticing(d) => s.(reader := AfterHandling(d), n := s.n.(queued := s.n.queued + 1))
    case Dropping(d, job) => s.(reader := AfterHandling(d), n := s.n.(failed := s.n.failed + 1))
    case Answering(d) => s.(reader := Reading, h := s.h.(answered := s.h.answered + [d]))
    case ClosingReadDone => s.(reader := Leaving, sd := s.sd.(readDone := true))
    case Leaving => s.(reader := ReaderGone, sd := s.sd.(waitGroup := s.sd.waitGroup - 1))
    case ReaderGone => s
  }

  function DoRead(e: Env, s: State, a: ReadAction): State {
    match a
    case Receive(d) => s.(reader := Counting(d), h := s.h.(arrived := s.h.arrived + [d]))
    case ReadFailure => s
    case ReadClosed => s.(reader := ClosingReadDone)
    case Advance => Advanced(e, s)
  }

  // Where a worker goes when reply r answers its post.
  function AfterReply(e: Env, job: Job, seen: seq<Reply>, r: Reply): WorkerPc {
    match Judge(r)
    case Good => Succeeding(job, seen + [r])
    case Bad => Failing(job, seen + [r])
    case TryAgain => if |seen| < e.retries then Noting(job, seen + [r]) else Failing(job, seen + [r])
  }

  function DoWork(e: Env, s: State, i: nat, a: WorkAction): State
    requires i < |s.workers| && CanWork(s, s.workers[i], a)
  {
    var w := s.workers[i];
    var move := (x: WorkerPc) => s.workers[i := x];
    match a
    case Take =>
      s.(workers := move(Encoding(s.queue.items[0])), queue := s.queue.(items := s.queue.items[1..]),
         h := s.h.(taken := s.h.taken + [s.queue.items[0]]))
    case FindDrained => s.(workers := move(Finishing))
    case Encode => s.(workers := move(if e.encodes(w.job) then Posting(w.job, []) else Failing(w.job, [])))
    case Answer(r) => s.(workers := move(AfterReply(e, w.job, w.seen, r)))
    case NoteRetry => s.(workers := move(Waiting(w.job, w.seen)), n := s.n.(retries := s.n.retries + 1))
    case Timer => s.(workers := move(Posting(w.job, w.seen)))
    case CancelWait => s.(workers := move(Idle), h := s.h.(log := s.h.log + [Entry(w.job, w.seen, Abandoned)]))
    case RecordOutcome =>
      var o := if w.Succeeding? then Delivered else Failed;
      s.(workers := move(Idle), h := s.h.(log := s.h.log + [Entry(w.job, w.seen, o)]),
         n := if w.Succeeding? then s.n.(forwarded := s.n.forwarded + 1) else s.n.(failed := s.n.failed + 1))
    case Leave => s.(workers := move(WorkerGone), sd := s.sd.(waitGroup := s.sd.waitGroup - 1))
  }

  function Closed(sd: Shutdown, a: CloseAction): Shutdown {
    match a
    case CloseConn => sd.(closer := AwaitReader, connClosed := true)
    case SeeReadDone => sd.(closer := ClosingQueue)
    case CloseQueue => sd.(closer := Selecting, waiter := OnWaitGroup)
    case WaiterStep => sd.(waiter := DoneClosed)
    case PickDone => sd.(closer := CancelingNil)
    case Deadline => sd.(closer := CancelingErr)
    case Cancel => sd.(closer := if sd.closer == CancelingNil then ReturnedNil else AwaitDone, canceled := true)
    case FinishErr => sd.(closer := ReturnedErr)
  }

  function DoClose(s: State, a: CloseAction): State {
    s.(sd := Closed(s.sd, a), queue := if a == CloseQueue then s.queue.(closed := true) else s.queue)
  }

  function Do(e: Env, s: State, step: Step): State
    requires Enabled(s, step)
  {
    match step
    case R(a) => DoRead(e, s, a)
    case W(i, a) => DoWork(e, s, i, a)
    case C(a) => DoClose(s, a)
  }

  predicate CanRun(e: Env, s: State, steps: seq<Step>)
    decreases |steps|
  {
    steps == [] || (Enabled(s, steps[0]) && CanRun(e, Do(e, s, steps[0]), steps[1..]))
  }

  function After(e: Env, s: State, steps: seq<Step>): State
    requires CanRun(e, s, steps)
    decreases |steps|
  {
    if steps == [] then s else After(e, Do(e, s, steps[0]), steps[1..])
  }

  ghost predicate Reachable(e: Env, s: State) {
    exists steps :: CanRun(e, Start(e), steps) && After(e, Start(e), steps) == s
  }
}

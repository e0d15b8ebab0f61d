// Which packets the trap service answers.
module TrapAnswers {
  import opened TrapPacket
  import opened TrapPipeline
  import opened TrapInvariants

  // The reader is at work on a datagram.
  predicate AtWork(r: ReaderPc) {
    r != Reading && r != ClosingReadDone && r != Leaving && r != ReaderGone
  }

  // The datagrams the reader is done with.
  function Handled(r: ReaderPc, arrived: seq<Datagram>): seq<Datagram> {
    if AtWork(r) && arrived != [] then arrived[..|arrived| - 1] else arrived
  }

  predicate AcceptedInform(e: Env, d: Datagram) {
    d.Decoded? && d.packet.pduType == InformRequest && e.dispose(d).Accepted?
  }

  function AcceptedInforms(e: Env, ds: seq<Datagram>): seq<Datagram> {
    if ds == [] then []
    else
      var last := ds[|ds| - 1];
      AcceptedInforms(e, ds[..|ds| - 1]) + (if AcceptedInform(e, last) then [last] else [])
  }

  ghost predicate AnswersInv(e: Env, r: ReaderPc, arrived: seq<Datagram>, answered: seq<Datagram>) {
    && (AtWork(r) ==> arrived != [] && arrived[|arrived| - 1] == r.d)
    && (r.Rejecting? || r.Missing? ==> !e.dispose(r.d).Accepted?)
    && (r.Matching? || r.Sending? || r.Noticing? || r.Dropping? ==> e.dispose(r.d).Accepted?)
    && (r.Answering? ==> AcceptedInform(e, r.d))
    && answered == AcceptedInforms(e, Handled(r, arrived))
  }

  lemma ArrivalsByReader(e: Env, s: State, a: ReadAction)
    requires CanRead(s, a)
    ensures var t := DoRead(e, s, a);
            && t.h.arrived == s.h.arrived + (if a.Receive? then [a.d] else [])
            && (a.Receive? ==> !AtWork(s.reader) && t.reader == Counting(a.d))
            && (!a.Receive? && AtWork(t.reader) ==> AtWork(s.reader) && t.reader.d == s.reader.d)
            && t.h.answered == s.h.answered + (if s.reader.Answering? then [s.reader.d] else [])
  {}

  lemma HandledAfter(r: ReaderPc, r': ReaderPc, arrived: seq<Datagram>, arrived': seq<Datagram>)
    requires AtWork(r) ==> arrived != [] && arrived[|arrived| - 1] == r.d
    requires || (!AtWork(r) && AtWork(r') && arrived' == arrived + [r'.d])
             || (arrived' == arrived && (AtWork(r') ==> AtWork(r) && r'.d == r.d))
    ensures Handled(r', arrived') == Handled(r, arrived) + (if AtWork(r) && !AtWork(r') then [r.d] else [])
    ensures AtWork(r') ==> arrived' != [] && arrived'[|arrived'| - 1] == r'.d
  {
    if arrived' != arrived { assert arrived'[..|arrived|] == arrived; }
    if arrived != [] { assert arrived == arrived[..|arrived| - 1] + [arrived[|arrived| - 1]]; }
  }

  // What a reader's step does to the datagrams handled and answered.
  lemma HandledByReader(e: Env, s: State, a: ReadAction)
    requires CanRead(s, a) && (AtWork(s.reader) ==> s.h.arrived != [] && s.h.arrived[|s.h.arrived| - 1] == s.reader.d)
    ensures var t, before := DoRead(e, s, a), Handled(s.reader, s.h.arrived);
            && Handled(t.reader, t.h.arrived) == (if AtWork(s.reader) && !AtWork(t.reader) then before + [s.reader.d] else before)
            && (AtWork(t.reader) ==> t.h.arrived != [] && t.h.arrived[|t.h.arrived| - 1] == t.reader.d)
            && t.h.answered == s.h.answered + (if s.reader.Answering? then [s.reader.d] else [])
  {
    ArrivalsByReader(e, s, a);
    HandledAfter(s.reader, DoRead(e, s, a).reader, s.h.arrived, DoRead(e, s, a).h.arrived);
  }

  lemma StagesByReader(e: Env, s: State, a: ReadAction)
    requires CanRead(s, a) && AnswersInv(e, s.reader, s.h.arrived, s.h.answered)
    ensures var r := DoRead(e, s, a).reader;
            && (r.Rejecting? || r.Missing? ==> !e.dispose(r.d).Accepted?)
            && (r.Matching? || r.Sending? || r.Noticing? || r.Dropping? ==> e.dispose(r.d).Accepted?)
            && (r.Answering? ==> AcceptedInform(e, r.d))
            && (s.reader.Answering? ==> AcceptedInform(e, s.reader.d) && !AtWork(r))
            && (AtWork(s.reader) && !AtWork(r) && AcceptedInform(e, s.reader.d) ==> s.reader.Answering?)
  {}

  lemma AnsweredGrows(e: Env, ds: seq<Datagram>, d: Datagram)
    ensures AcceptedInforms(e, ds + [d]) == AcceptedInforms(e, ds) + (if AcceptedInform(e, d) then [d] else [])
  {
    assert (ds + [d])[..|ds|] == ds;
  }

  lemma ReaderUntouched(e: Env, s: State, i: nat, a: WorkAction)
    requires Enabled(s, W(i, a))
    ensures var t := DoWork(e, s, i, a); t.reader == s.reader && t.h.arrived == s.h.arrived && t.h.answered == s.h.answered
  {}

  lemma AnswersInvStep(e: Env, s: State, step: Step)
    requires Enabled(s, step) && AnswersInv(e, s.reader, s.h.arrived, s.h.answered)
    ensures var t := Do(e, s, step); AnswersInv(e, t.reader, t.h.arrived, t.h.answered)
  {
    match step
    case R(a) =>
      HandledByReader(e, s, a);
      StagesByReader(e, s, a);
      if AtWork(s.reader) { AnsweredGrows(e, Handled(s.reader, s.h.arrived), s.reader.d); }
    case W(i, a) => ReaderUntouched(e, s, i, a);
    case C(a) =>
  }

  lemma {:induction false} AnswersInvRun(e: Env, s: State, steps: seq<Step>)
    requires CanRun(e, s, steps) && AnswersInv(e, s.reader, s.h.arrived, s.h.answered)
    ensures var t := After(e, s, steps); AnswersInv(e, t.reader, t.h.arrived, t.h.answered)
    decreases |steps|
  {
    if steps == [] {
    } else {
      AnswersInvStep(e, s, steps[0]);
      AnswersInvRun(e, Do(e, s, steps[0]), steps[1..]);
    }
  }

  // In every reachable state the answered datagrams are exactly the accepted
  // informs among those the reader is done with, in order of arrival; once it has
  // left, among all that arrived.
  lemma ExactlyAcceptedInformsAreAnswered(e: Env, s: State)
    requires Reachable(e, s)
    ensures s.h.answered == AcceptedInforms(e, Handled(s.reader, s.h.arrived))
    ensures s.reader == ReaderGone ==> s.h.answered == AcceptedInforms(e, s.h.arrived)
  {
    var steps :| CanRun(e, Start(e), steps) && After(e, Start(e), steps) == s;
    AnswersInvRun(e, Start(e), steps);
  }
}

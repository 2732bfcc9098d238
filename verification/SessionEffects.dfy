/**
 What each step of the session does, field by field (src/atsq/connection.py): which line is written, who is
 told what, what is left alone. Lines are told apart by their words and errors by their numbers.
 */
module SessionEffects {
  import opened Sequences
  import opened Utf8
  import opened Protocol
  import opened Demux
  import opened Session
  import opened SessionSafety
  import Flood

  // ----- Futures -----

  /** The future of a call that waits for a response, once something has settled it. */
  function SettledPhase(phase: Phase, future: Future): Phase {
    match phase
    case Draining(Unresolved) => Draining(future)
    case Awaiting(Unresolved) => Awaiting(future)
    case _ => phase
  }

  /** Every open future is settled this way, and no call is touched otherwise. */
  ghost predicate Settles(before: Calls, after: Calls, future: Future) {
    && after.Keys == before.Keys
    && forall c :: c in before ==> after[c] == before[c].(phase := SettledPhase(before[c].phase, future))
  }

  /** Where the pending slot is the lock holder's, settling the pending future settles all that are open. */
  lemma {:induction false} SettleSettles(s: State, future: Future)
    requires LockOk(s.lock, s.pending, s.calls)
    ensures Settles(s.calls, Settle(s.calls, s.pending, future), future)
  {
    forall c | c in s.calls
      ensures Settle(s.calls, s.pending, future)[c] == s.calls[c].(phase := SettledPhase(s.calls[c].phase, future))
    {
      assert IsUnresolved(s.calls[c].phase) ==> Holds(s.calls[c].phase);
    }
  }

  // ----- Closing -----

  /** A `quit` is written exactly by the first closing, if the transport is open and the send succeeds. */
  function WireAfterClose(s: State, quitOk: bool): seq<Sent> {
    if !s.closed && !s.transportClosed && quitOk then s.wire + [Quit] else s.wire
  }

  ghost predicate Closes(s: State, t: State, quitOk: bool) {
    && t.closed && !t.receiving
    && t.wire == WireAfterClose(s, quitOk)
    && t.transportClosed == (s.transportClosed || (!s.closed && !quitOk))
    && (s.closed ==> t == s)
    && (!s.closed ==> Settles(s.calls, t.calls, Failed))
    && t.lock == s.lock && t.pending == s.pending && t.dataBuffer == s.dataBuffer && t.received == s.received
    && t.log.published == s.log.published && t.log.handed == s.log.handed
  }

  lemma {:induction false} CloseCloses(s: State, quitOk: bool)
    requires LockOk(s.lock, s.pending, s.calls) && (s.closed ==> !s.receiving)
    ensures Closes(s, Step(s, Close(quitOk)), quitOk)
  {
    SettleSettles(s, Failed);
  }

  /** The stream has ended: closed on both sides, and nothing is written. */
  ghost predicate Ends(s: State, t: State) {
    && t.closed && !t.receiving && t.transportClosed && t.wire == s.wire
    && Settles(s.calls, t.calls, Failed)
    && t.lock == s.lock && t.pending == s.pending && t.dataBuffer == s.dataBuffer && t.received == s.received
    && t.log.published == s.log.published && t.log.handed == s.log.handed
  }

  lemma {:induction false} EndOfStreamEnds(s: State)
    requires LockOk(s.lock, s.pending, s.calls) && s.receiving && !s.closed
    ensures Ends(s, Step(s, EndOfStream))
  {
    SettleSettles(s, Failed);
  }

  // ----- A line received -----

  predicate IsEnd(line: Line) {
    Begins(line, "error ") || Decode(line) == "error"
  }

  /**
   A blank line does nothing. A line that begins with `notify` is published. One that begins with the word
   `error` empties the buffer and settles the open future, if there is one, with the lines buffered and
   the error; if it cannot be read, it closes the connection. Any other line is buffered.
   */
  ghost predicate Receives(s: State, t: State, line: Line) {
    && t.received == s.received + [line]
    && t.wire == s.wire && t.lock == s.lock && t.pending == s.pending && t.transportClosed == s.transportClosed
    && t.lastActivity == s.lastActivity && t.now == s.now
    && (line == [] ==> t.dataBuffer == s.dataBuffer && t.log == s.log)
    && (Begins(line, "notify") ==> t.dataBuffer == s.dataBuffer && t.log.published == s.log.published + [line])
    && (!Begins(line, "notify") ==> t.log.published == s.log.published)
    && (IsEnd(line) ==>
          && t.dataBuffer == []
          && (ParsedError(line).Ok? ==>
                t.log == s.log && Settles(s.calls, t.calls, Resolved(s.dataBuffer, ParsedError(line).value)))
          && (ParsedError(line).Err? ==> t.closed && !t.receiving && Settles(s.calls, t.calls, Failed)))
    && (!IsEnd(line) ==> t.calls == s.calls)
    && (!IsEnd(line) || ParsedError(line).Ok? ==> t.closed == s.closed && t.receiving == s.receiving)
    && (line != [] && !Begins(line, "notify") && !IsEnd(line) ==>
          t.dataBuffer == s.dataBuffer + [line] && t.log == s.log)
  }

  /** The same by kinds. */
  ghost predicate ReceivesAs(s: State, t: State, line: Line, kind: Kind, parsed: Result<ErrorLine, ParseError>) {
    && t.received == s.received
    && t.wire == s.wire && t.lock == s.lock && t.pending == s.pending && t.transportClosed == s.transportClosed
    && t.lastActivity == s.lastActivity && t.now == s.now
    && (!kind.Terminator? || parsed.Ok? ==> t.closed == s.closed && t.receiving == s.receiving)
    && match kind
       case Blank => t.dataBuffer == s.dataBuffer && t.log == s.log && t.calls == s.calls
       case Notification =>
         t.dataBuffer == s.dataBuffer && t.log.published == s.log.published + [line] && t.calls == s.calls
       case Terminator =>
         && t.dataBuffer == [] && t.log.published == s.log.published
         && (parsed.Ok? ==> t.log == s.log && Settles(s.calls, t.calls, Resolved(s.dataBuffer, parsed.value)))
         && (parsed.Err? ==> t.closed && !t.receiving && Settles(s.calls, t.calls, Failed))
       case Data => t.dataBuffer == s.dataBuffer + [line] && t.log == s.log && t.calls == s.calls
  }

  lemma {:induction false} OnLineReceives(s: State, line: Line, kind: Kind, parsed: Result<ErrorLine, ParseError>)
    requires LockOk(s.lock, s.pending, s.calls) && s.receiving && !s.closed
    ensures ReceivesAs(s, OnLine(s, line, kind, parsed), line, kind, parsed)
  {
    SettleSettles(s, Failed);
    if parsed.Ok? {
      SettleSettles(s, Resolved(s.dataBuffer, parsed.value));
    }
  }

  lemma {:induction false} ByWords(s: State, t: State, line: Line, kind: Kind, parsed: Result<ErrorLine, ParseError>)
    requires ReceivesAs(s.(received := s.received + [line]), t, line, kind, parsed)
    requires kind == KindOf(line) && parsed == ParsedError(line)
    ensures Receives(s, t, line)
  {
    KindsByWords(line);
  }

  lemma {:induction false} ReceiveReceives(s: State, line: Line)
    requires LockOk(s.lock, s.pending, s.calls) && s.receiving && !s.closed
    ensures Receives(s, Step(s, Receive(line)), line)
  {
    OnLineReceives(s.(received := s.received + [line]), line, KindOf(line), ParsedError(line));
    ByWords(s, Step(s, Receive(line)), line, KindOf(line), ParsedError(line));
  }

  // ----- One call -----

  /** The call is the only one that changes. */
  ghost predicate Becomes(s: State, t: State, c: nat, call: Call) {
    t.calls == s.calls[c := call] && t.log == s.log && t.received == s.received && t.dataBuffer == s.dataBuffer
  }

  /** Closed, broken or failing, the send writes nothing and the call is told; else the line goes out. */
  ghost predicate Acquires(s: State, t: State, c: nat, writeOk: bool)
    requires c in s.calls
  {
    var call := s.calls[c];
    && t.closed == s.closed && t.receiving == s.receiving && t.lastActivity == s.lastActivity
    && if s.closed || s.transportClosed || !writeOk then
         && Becomes(s, t, c, call.(phase := Finished(ConnectionClosed)))
         && t.wire == s.wire && t.lock == t.pending == None
         && t.transportClosed == (s.transportClosed || !s.closed)
       else
         && Becomes(s, t, c, Call(call.line, Draining(Unresolved), call.attempts + [Attempt(|s.wire|, s.now, None)]))
         && t.wire == s.wire + [Issued(c, call.line)] && t.lock == t.pending == Some(c)
         && !t.transportClosed
  }

  lemma {:induction false} AcquireAcquires(s: State, c: nat, writeOk: bool)
    requires LockOk(s.lock, s.pending, s.calls) && CanMove(s, c, Acquire(writeOk))
    ensures Acquires(s, Step(s, Exec(c, Acquire(writeOk))), c, writeOk)
  {
  }

  /** A drained send is noted; a failed one breaks the transport and ends the call, but not the connection. */
  ghost predicate Returns(s: State, t: State, c: nat, drainOk: bool)
    requires c in s.calls && s.calls[c].phase.Draining?
  {
    var call := s.calls[c];
    && t.closed == s.closed && t.receiving == s.receiving && t.wire == s.wire
    && if drainOk then
         && Becomes(s, t, c, call.(phase := Awaiting(call.phase.future)))
         && t.lastActivity == s.now && t.lock == t.pending == Some(c) && t.transportClosed == s.transportClosed
       else
         && Becomes(s, t, c, call.(phase := Finished(ConnectionClosed)))
         && t.lastActivity == s.lastActivity && t.lock == t.pending == None && t.transportClosed
  }

  lemma {:induction false} SendReturnsReturns(s: State, c: nat, drainOk: bool)
    requires LockOk(s.lock, s.pending, s.calls) && CanMove(s, c, SendReturns(drainOk))
    ensures Returns(s, Step(s, Exec(c, SendReturns(drainOk))), c, drainOk)
  {
    assert Holds(s.calls[c].phase);
  }

  /** The timeout closes the connection in its own step, or finds it closed and ends the call. */
  ghost predicate TimesOut(s: State, t: State, c: nat, quitOk: bool)
    requires c in s.calls
  {
    && t.closed && t.wire == WireAfterClose(s, quitOk)
    && t.transportClosed == (s.transportClosed || (!s.closed && !quitOk))
    && c in t.calls && t.calls == s.calls[c := s.calls[c].(phase := t.calls[c].phase)]
    && if s.closed then t.calls[c].phase == Finished(TimedOut) && t.lock == t.pending == None
       else t.calls[c].phase == Closing && t.lock == t.pending == Some(c)
  }

  lemma {:induction false} TimeoutTimesOut(s: State, c: nat, quitOk: bool)
    requires LockOk(s.lock, s.pending, s.calls) && CanMove(s, c, CloseAfterTimeout(quitOk))
    ensures TimesOut(s, Step(s, Exec(c, CloseAfterTimeout(quitOk))), c, quitOk)
  {
    assert Holds(s.calls[c].phase);
  }

  /** Rows for the number 0; the error for any other, but a flood waits for its retry while tries are left. */
  predicate Concludes(config: Config, now: real, attempts: nat, data: seq<Line>, error: ErrorLine, phase: Phase) {
    if error.id == 0 then phase == Finished(Rows(BlockRecords(data)))
    else if error.id != 524 then phase == Finished(QueryFailed(error))
    else if attempts == config.floodRetries + 1 then phase == Finished(Flooded(error))
    else phase == Sleeping(now + Flood.RetryAfter(error) + 0.1)
  }

  /** A failed future is the closed error; a response is recorded, noted and concluded from; the lock is free. */
  ghost predicate Resumes(s: State, t: State, c: nat)
    requires c in s.calls && s.calls[c].phase.Awaiting? && |s.calls[c].attempts| > 0
  {
    var call := s.calls[c];
    var last := |call.attempts| - 1;
    && t.closed == s.closed && t.receiving == s.receiving && t.wire == s.wire && t.transportClosed == s.transportClosed
    && t.lock == t.pending == None
    && c in t.calls && Becomes(s, t, c, t.calls[c])
    && match call.phase.future
       case Resolved(data, error) =>
         && t.lastActivity == s.now
         && t.calls[c].line == call.line
         && t.calls[c].attempts ==
            call.attempts[last := call.attempts[last].(answer := Some(Session.Answer(data, error, s.now)))]
         && Concludes(s.config, s.now, |call.attempts|, data, error, t.calls[c].phase)
       case _ => t.lastActivity == s.lastActivity && t.calls[c] == call.(phase := Finished(ConnectionClosed))
  }

  lemma {:induction false} ResumeResumes(s: State, c: nat)
    requires LockOk(s.lock, s.pending, s.calls) && CanMove(s, c, Resume) && |s.calls[c].attempts| > 0
    ensures Resumes(s, Step(s, Exec(c, Resume)), c)
  {
    assert Holds(s.calls[c].phase);
    if s.calls[c].phase.future.Resolved? {
      var data, error := s.calls[c].phase.future.data, s.calls[c].phase.future.error;
      AfterAnswerConcludes(s.config, s.now, |s.calls[c].attempts|, data, error);
      assert Step(s, Exec(c, Resume)) == TakeResult(s, c);
    }
  }

  lemma {:induction false} AfterAnswerConcludes(
      config: Config, now: real, attempts: nat, data: seq<Line>, error: ErrorLine)
    ensures var phase := AfterAnswer(config, now, attempts, Session.Answer(data, error, now));
            Concludes(config, now, attempts, data, error, phase)
  {
  }

  /** A step that ends a call frees lock and slot if the call had them, and leaves the rest alone. */
  ghost predicate Finishes(s: State, t: State, c: nat, outcome: Outcome)
    requires c in s.calls
  {
    && Becomes(s, t, c, s.calls[c].(phase := Finished(outcome)))
    && t.closed == s.closed && t.receiving == s.receiving && t.wire == s.wire && t.lastActivity == s.lastActivity
    && t.lock == t.pending == if s.lock == Some(c) then None else s.lock
  }

  lemma {:induction false} LastSteps(s: State, c: nat)
    requires LockOk(s.lock, s.pending, s.calls)
    ensures CanMove(s, c, FinishClosing) ==>
              && Finishes(s, Step(s, Exec(c, FinishClosing)), c, TimedOut)
              && Step(s, Exec(c, FinishClosing)).transportClosed
    ensures CanMove(s, c, Cancel) ==>
              && Finishes(s, Step(s, Exec(c, Cancel)), c, Cancelled)
              && Step(s, Exec(c, Cancel)).transportClosed == s.transportClosed
  {
  }
}

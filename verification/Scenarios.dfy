/**
 The ordinary courses of the session (src/atsq/connection.py), from any state in which a call can write:
 each of them is possible, and ends as its caller expects.
 */
module Scenarios {
  import opened Sequences
  import opened Utf8
  import opened Protocol
  import opened Demux
  import opened Session
  import opened SessionSafety
  import Flood

  /** Open, with nobody in the way. */
  predicate IsReady(s: State) {
    && !s.closed && s.receiving && !s.transportClosed && s.lock.None? && s.pending.None?
    && s.dataBuffer == [] && s.config.floodRetries >= 0
  }

  // ----- A call writes -----

  function WriteSteps(c: nat, line: Line): seq<Action> {
    [Exec(c, Begin(line)), Exec(c, Acquire(true)), Exec(c, SendReturns(true))]
  }

  /** The call waits for the answer to its first try. */
  function Written(s: State, c: nat, line: Line): State {
    s.(calls := s.calls[c := Call(line, Awaiting(Unresolved), [Attempt(|s.wire|, s.now, None)])],
    lock := Some(c), pending := Some(c), wire := s.wire + [Issued(c, line)], lastActivity := s.now)
  }

  lemma {:induction false} RunThree(s: State, a: Action, b: Action, c: Action)
    ensures Run(s, [a, b, c]) == Next(Next(Next(s, a), b), c)
  {
    RunNext(s, [], a);
    RunNext(s, [a], b);
    RunNext(s, [a, b], c);
    assert [] + [a] == [a] && [a] + [b] == [a, b] && [a, b] + [c] == [a, b, c];
  }

  lemma {:induction false} CallWrites(s: State, c: nat, line: Line)
    requires IsReady(s) && c !in s.calls
    ensures Run(s, WriteSteps(c, line)) == Written(s, c, line)
  {
    RunThree(s, Exec(c, Begin(line)), Exec(c, Acquire(true)), Exec(c, SendReturns(true)));
    var s1 := Next(s, Exec(c, Begin(line)));
    assert s1 == s.(calls := s.calls[c := Call(line, Queued, [])]);
    var s2 := Next(s1, Exec(c, Acquire(true)));
    assert s2 == AcquireLock(s1, c, true);
    assert [] + [Attempt(|s.wire|, s.now, None)] == [Attempt(|s.wire|, s.now, None)];
    var s3 := Next(s2, Exec(c, SendReturns(true)));
    assert s3.calls == Written(s, c, line).calls;
    assert s3 == Written(s, c, line);
  }

  // ----- And is answered -----

  /** The call has its answer. */
  function Answered(s: State, c: nat, line: Line, data: seq<Line>, error: ErrorLine, received: seq<Line>): State {
    Written(s, c, line).(
    calls := s.calls[c := Call(line, Awaiting(Resolved(data, error)), [Attempt(|s.wire|, s.now, None)])],
    received := received)
  }

  lemma {:induction false} DataArrives(s: State, data: Line)
    requires s.receiving && KindOf(data).Data?
    ensures Next(s, Receive(data)) == s.(received := s.received + [data], dataBuffer := s.dataBuffer + [data])
  {
  }

  lemma {:induction false} EndArrives(s: State, c: nat, end: Line, error: ErrorLine)
    requires s.receiving && s.pending == Some(c) && c in s.calls && s.calls[c].phase == Awaiting(Unresolved)
    requires KindOf(end).Terminator? && ParsedError(end) == Ok(error)
    ensures Next(s, Receive(end)) ==
            s.(received := s.received + [end], dataBuffer := [],
               calls := s.calls[c := s.calls[c].(phase := Awaiting(Resolved(s.dataBuffer, error)))])
  {
    EndSettles(s.(received := s.received + [end]), c, end, KindOf(end), Ok(error));
  }

  lemma {:induction false} EndSettles(s: State, c: nat, end: Line, kind: Kind, parsed: Result<ErrorLine, ParseError>)
    requires s.pending == Some(c) && c in s.calls && s.calls[c].phase == Awaiting(Unresolved)
    requires kind.Terminator? && parsed.Ok?
    ensures OnLine(s, end, kind, parsed) ==
            s.(dataBuffer := [],
               calls := s.calls[c := s.calls[c].(phase := Awaiting(Resolved(s.dataBuffer, parsed.value)))])
  {
  }

  lemma {:induction false} RunTwo(s: State, a: Action, b: Action)
    ensures Run(s, [a, b]) == Next(Next(s, a), b)
  {
    RunNext(s, [], a);
    RunNext(s, [a], b);
    assert [] + [a] == [a] && [a] + [b] == [a, b];
  }

  lemma {:induction false} AnsweredIs(s: State, c: nat, line: Line, data: Line, end: Line, error: ErrorLine, u: State)
    requires IsReady(s) && u == Written(s, c, line).(received := s.received + [data], dataBuffer := [data])
    ensures u.(received := u.received + [end], dataBuffer := [],
               calls := u.calls[c := u.calls[c].(phase := Awaiting(Resolved([data], error)))]) ==
            Answered(s, c, line, [data], error, s.received + [data] + [end])
  {
  }

  /** One data line and a terminator come back. */
  lemma {:induction false} CallIsAnswered(s: State, c: nat, line: Line, data: Line, end: Line, error: ErrorLine)
    requires IsReady(s) && KindOf(data).Data? && KindOf(end).Terminator? && ParsedError(end) == Ok(error)
    ensures Run(Written(s, c, line), [Receive(data), Receive(end)]) ==
            Answered(s, c, line, [data], error, s.received + [data] + [end])
  {
    var u := Written(s, c, line).(received := s.received + [data], dataBuffer := [data]);
    RunTwo(Written(s, c, line), Receive(data), Receive(end));
    DataArrives(Written(s, c, line), data);
    assert s.dataBuffer + [data] == [data];
    EndArrives(u, c, end, error);
    AnsweredIs(s, c, line, data, end, error, u);
  }

  lemma {:induction false} GoodIsRows(config: Config, now: real, attempts: nat, data: seq<Line>, error: ErrorLine)
    requires error.id == 0
    ensures AfterAnswer(config, now, attempts, Session.Answer(data, error, now)) == Finished(Rows(BlockRecords(data)))
  {
  }

  /** A good answer: the rows of the data lines, and the next call may write. */
  lemma {:induction false} GoodAnswerReturnsRows(
      s: State, c: nat, line: Line, data: seq<Line>, error: ErrorLine, received: seq<Line>)
    requires IsReady(s) && error.id == 0
    ensures var t := Next(Answered(s, c, line, data, error, received), Exec(c, Resume));
            && IsReady(t) && t.wire == s.wire + [Issued(c, line)] && t.lastActivity == t.now == s.now
            && c in t.calls && t.calls[c].phase == Finished(Rows(BlockRecords(data)))
  {
    var u := Answered(s, c, line, data, error, received);
    GoodIsRows(s.config, s.now, 1, data, error);
    assert Next(u, Exec(c, Resume)) == TakeResult(u, c);
  }

  /** An error answer: the error is raised, and the next call may write. */
  lemma {:induction false} ErrorAnswerRaises(
      s: State, c: nat, line: Line, data: seq<Line>, error: ErrorLine, received: seq<Line>)
    requires IsReady(s) && error.id != 0 && error.id != 524
    ensures var t := Next(Answered(s, c, line, data, error, received), Exec(c, Resume));
            IsReady(t) && c in t.calls && t.calls[c].phase == Finished(QueryFailed(error))
  {
    var u := Answered(s, c, line, data, error, received);
    assert Next(u, Exec(c, Resume)) == TakeResult(u, c);
  }

  /** A flood answer: the call sleeps if it may try again, and others may write; else the flood is raised. */
  lemma {:induction false} FloodAnswerSleeps(
      s: State, c: nat, line: Line, data: seq<Line>, error: ErrorLine, received: seq<Line>)
    requires IsReady(s) && error.id == 524
    ensures var t := Next(Answered(s, c, line, data, error, received), Exec(c, Resume));
            && IsReady(t) && c in t.calls
            && t.calls[c].phase == if s.config.floodRetries == 0 then Finished(Flooded(error))
                                   else Sleeping(s.now + Flood.RetryAfter(error) + 0.1)
  {
    var u := Answered(s, c, line, data, error, received);
    assert Next(u, Exec(c, Resume)) == TakeResult(u, c);
  }

  /** When its time has come, a sleeper that has a try left queues again, and not before. */
  lemma {:induction false} SleeperWakes(s: State, c: nat, time: real)
    requires c in s.calls && s.calls[c].phase.Sleeping? && |s.calls[c].attempts| <= s.config.floodRetries && time >= 0.0
    ensures var t := Next(Next(s, Tick(time)), Exec(c, Wake));
            && c in t.calls
            && t.calls[c].phase == if s.now + time >= s.calls[c].phase.until then Queued else s.calls[c].phase
  {
  }

  // ----- Or is not -----

  /** The timeout fires: `quit` is written, the connection closed, the call timed out. */
  lemma {:induction false} CallTimesOut(s: State, c: nat, line: Line)
    requires IsReady(s)
    ensures var t := Run(Written(s, c, line),
                         [Exec(c, Expire), Exec(c, CloseAfterTimeout(true)), Exec(c, FinishClosing)]);
            && t.closed && t.transportClosed && t.lock.None? && t.wire == s.wire + [Issued(c, line)] + [Quit]
            && c in t.calls && t.calls[c].phase == Finished(TimedOut)
  {
    var u := Written(s, c, line);
    RunThree(u, Exec(c, Expire), Exec(c, CloseAfterTimeout(true)), Exec(c, FinishClosing));
    var expired := Next(u, Exec(c, Expire));
    assert expired == u.(calls := SetPhase(u.calls, c, Session.Expired));
    var closing := Next(expired, Exec(c, CloseAfterTimeout(true)));
    assert closing == CloseBlock(expired.(calls := SetPhase(expired.calls, c, Session.Closing)), true);
    assert closing.calls[c].phase == Session.Closing;
  }

  /** The stream ends: the call is told that the connection is closed. */
  lemma {:induction false} CallSeesTheEnd(s: State, c: nat, line: Line)
    requires IsReady(s)
    ensures var t := Next(Next(Written(s, c, line), EndOfStream), Exec(c, Resume));
            && t.closed && t.transportClosed && t.lock.None? && t.wire == s.wire + [Issued(c, line)]
            && c in t.calls && t.calls[c].phase == Finished(ConnectionClosed)
  {
    var u := Next(Written(s, c, line), EndOfStream);
    assert u.calls[c].phase == Awaiting(Failed);
  }

  /** Somebody closes: `quit` is written, and the call is told. */
  lemma {:induction false} CallSeesTheClosing(s: State, c: nat, line: Line)
    requires IsReady(s)
    ensures var t := Next(Next(Written(s, c, line), Close(true)), Exec(c, Resume));
            && t.closed && t.lock.None? && t.wire == s.wire + [Issued(c, line)] + [Quit]
            && c in t.calls && t.calls[c].phase == Finished(ConnectionClosed)
  {
    var u := Next(Written(s, c, line), Close(true));
    assert u.calls[c].phase == Awaiting(Failed);
  }

  // ----- Events -----

  /** An event that finds room is queued behind the others. */
  lemma {:induction false} EventIsQueued(s: State, line: Line)
    requires s.receiving && Begins(line, "notify")
    requires s.config.queueSize <= 0 || |s.log.queue| < s.config.queueSize
    ensures Next(s, Receive(line)).log ==
            s.log.(queue := s.log.queue + [Event(line)], published := s.log.published + [line])
  {
    KindsByWords(line);
    var log := s.log.(published := s.log.published + [line]);
    assert WithRoom(log.queue, s.config.queueSize) == log.queue;
    assert log.fates + Drops(0) == log.fates;
  }

  /** One that finds a full queue costs the oldest. */
  lemma {:induction false} EventCostsTheOldest(s: State, line: Line)
    requires s.receiving && Begins(line, "notify")
    requires 0 < s.config.queueSize == |s.log.queue|
    ensures Next(s, Receive(line)).log ==
            s.log.(queue := s.log.queue[1..] + [Event(line)], published := s.log.published + [line],
                   fates := s.log.fates + [Dropped])
  {
    KindsByWords(line);
    PutIsTrimThenAppend(s.log.(published := s.log.published + [line]), s.config.queueSize, Event(line));
  }

  /** A waiter takes the oldest. */
  lemma {:induction false} WaiterTakesTheOldest(s: State, line: Line)
    requires |s.log.queue| > 0 && s.log.queue[0] == Event(line)
    ensures Next(s, TakeEvent).log ==
            s.log.(queue := s.log.queue[1..],
                   fates := s.log.fates + [Delivered], handed := s.log.handed + [Event(line)])
  {
  }
}

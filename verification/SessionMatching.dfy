/** Every caller gets the answer to the line it wrote: responses carry no request id. */
module SessionMatching {
  import opened Sequences
  import opened Protocol
  import opened Demux
  import opened Session
  import opened SessionSafety
  import Codec
  import Flood

  // ----- What the server has answered -----

  /** A finished response as the client reads it. */
  datatype Reply = Reply(data: seq<Line>, parsed: Result<ErrorLine, ParseError>)

  function Replies(responses: seq<Response>): (r: seq<Reply>)
    ensures |r| == |responses|
  {
    if |responses| == 0 then []
    else
      var last := responses[|responses| - 1];
      Replies(responses[..|responses| - 1]) + [Reply(last.data, ParsedError(last.terminator))]
  }

  function RepliesSoFar(s: State): (r: seq<Reply>)
    ensures |r| == |Sort(s.received).responses|
  {
    Replies(Sort(s.received).responses)
  }

  function RepliesWith(
      replies: seq<Reply>, data: seq<Line>, kind: Kind, parsed: Result<ErrorLine, ParseError>): seq<Reply>
  {
    if kind.Terminator? then replies + [Reply(data, parsed)] else replies
  }

  lemma {:induction false} RepliesNext(received: seq<Line>, line: Line)
    ensures Replies(Sort(received + [line]).responses) ==
            RepliesWith(Replies(Sort(received).responses), Sort(received).partial, KindOf(line), ParsedError(line))
  {
  }

  // ----- The assumption -----

  /**
   The server answers command lines in order with one response each: it sends a data or error line
   only while some command line is unanswered. And nobody cancels a call whose command is unanswered.
   */
  ghost predicate Conforming(s: State, a: Action) {
    && (a.Receive? && (KindOf(a.line).Data? || KindOf(a.line).Terminator?) ==>
          |Sort(s.received).responses| < |s.wire|)
    && (a.Exec? && a.move.Cancel? ==>
          s.closed || s.lock != Some(a.caller) || |Sort(s.received).responses| == |s.wire|)
  }

  ghost predicate ConformingRun(s: State, actions: seq<Action>) {
    |actions| == 0 ||
    var before := actions[..|actions| - 1];
    && ConformingRun(s, before)
    && Conforming(Run(s, before), actions[|actions| - 1])
  }

  // ----- The invariant -----

  predicate IsReplyAt(replies: seq<Reply>, slot: nat, data: seq<Line>, error: ErrorLine) {
    slot < |replies| && replies[slot] == Reply(data, Ok(error))
  }

  predicate FutureMatches(call: Call, future: Future, replies: seq<Reply>) {
    future.Resolved? ==> |call.attempts| > 0 && IsReplyAt(replies, LastAttempt(call).slot, future.data, future.error)
  }

  /** What a call was answered, and what its future holds, is the reply to its own line on the wire. */
  ghost predicate CallMatches(call: Call, replies: seq<Reply>) {
    && (forall k :: 0 <= k < |call.attempts| && call.attempts[k].answer.Some? ==>
          IsReplyAt(replies, call.attempts[k].slot,
                    call.attempts[k].answer.value.data, call.attempts[k].answer.value.error))
    && (call.phase.Draining? || call.phase.Awaiting? ==> FutureMatches(call, call.phase.future, replies))
  }

  /** The holder's line is the last one written, and it is unanswered exactly while its future is open. */
  predicate HolderOk(call: Call, replies: nat, written: nat) {
    call.phase.Draining? || call.phase.Awaiting? ==>
      && |call.attempts| > 0
      && LastAttempt(call).slot + 1 == written
      && !call.phase.future.Failed?
      && (call.phase.future.Unresolved? <==> replies < written)
  }

  /** While open, at most one command is unanswered, and then the lock holder wrote it. */
  ghost predicate InFlightOk(s: State, replies: nat) {
    !s.closed ==>
      && replies <= |s.wire| <= replies + 1
      && (replies == |s.wire| ==> s.dataBuffer == [])
      && (s.transportClosed ==> s.lock.None?)
      && (s.lock.None? && !s.transportClosed ==> replies == |s.wire|)
      && (s.lock.Some? && s.lock.value in s.calls ==> HolderOk(s.calls[s.lock.value], replies, |s.wire|))
  }

  ghost predicate Matched(s: State, replies: seq<Reply>) {
    && (forall c :: c in s.calls ==> CallMatches(s.calls[c], replies))
    && InFlightOk(s, |replies|)
  }

  // ----- Each step keeps it -----

  lemma {:induction false} CallMatchesLater(call: Call, replies: seq<Reply>, more: seq<Reply>)
    requires CallMatches(call, replies) && replies <= more
    ensures CallMatches(call, more)
  {
  }

  lemma {:induction false} MatchedByWrite(s: State, c: nat, replies: seq<Reply>)
    requires LockOk(s.lock, s.pending, s.calls) && Matched(s, replies)
    requires CanMove(s, c, Acquire(true)) && !s.closed && !s.transportClosed
    ensures Matched(AcquireLock(s, c, true), replies)
  {
  }

  lemma {:induction false} MatchedByResult(s: State, c: nat, replies: seq<Reply>)
    requires LockOk(s.lock, s.pending, s.calls) && Matched(s, replies)
    requires CanMove(s, c, Resume) && s.calls[c].phase.future.Resolved?
    ensures Matched(TakeResult(s, c), replies)
  {
    var call, answered := s.calls[c], TakeResult(s, c).calls[c];
    assert forall k :: 0 <= k < |call.attempts| ==> answered.attempts[k].slot == call.attempts[k].slot;
    assert forall k :: 0 <= k < |call.attempts| - 1 ==> answered.attempts[k] == call.attempts[k];
    assert CallMatches(answered, replies);
  }

  lemma {:induction false} MatchedByFinish(s: State, c: nat, outcome: Outcome, replies: seq<Reply>)
    requires LockOk(s.lock, s.pending, s.calls) && Matched(s, replies) && c in s.calls
    requires s.closed || s.transportClosed || s.lock != Some(c) || |replies| == |s.wire|
    ensures Matched(Finish(s, c, outcome), replies)
  {
  }

  /** The transport breaks under the lock holder. */
  lemma {:induction false} MatchedByBreak(s: State, c: nat, outcome: Outcome, replies: seq<Reply>)
    requires LockOk(s.lock, s.pending, s.calls) && Matched(s, replies) && c in s.calls
    requires s.lock == Some(c) || s.lock.None?
    ensures Matched(Finish(s.(transportClosed := true), c, outcome), replies)
  {
  }

  lemma {:induction false} MatchedByPhase(s: State, c: nat, phase: Phase, replies: seq<Reply>)
    requires LockOk(s.lock, s.pending, s.calls) && Matched(s, replies) && c in s.calls
    requires !phase.Draining? && (phase.Awaiting? ==> s.calls[c].phase == Draining(phase.future))
    ensures Matched(s.(calls := SetPhase(s.calls, c, phase)), replies)
  {
  }

  lemma {:induction false} MatchedByFailing(s: State, replies: seq<Reply>)
    requires Matched(s, replies)
    ensures forall c :: c in s.calls ==> CallMatches(Settle(s.calls, s.pending, Failed)[c], replies)
    ensures Settle(s.calls, s.pending, Failed).Keys == s.calls.Keys
  {
  }

  lemma {:induction false} MatchedByClosing(s: State, a: Action, replies: seq<Reply>)
    requires LockOk(s.lock, s.pending, s.calls) && Matched(s, replies)
    requires Enabled(s, a) && (a.Close? || a.EndOfStream?)
    ensures Matched(Step(s, a), replies)
  {
  }

  lemma {:induction false} MatchedByTimeoutClose(s: State, c: nat, quitOk: bool, replies: seq<Reply>)
    requires LockOk(s.lock, s.pending, s.calls) && Matched(s, replies)
    requires CanMove(s, c, CloseAfterTimeout(quitOk))
    ensures Matched(MakeMove(s, c, CloseAfterTimeout(quitOk)), replies)
  {
    if s.closed {
      MatchedByFinish(s, c, TimedOut, replies);
    } else {
      MatchedByPhase(s, c, Closing, replies);
      MatchedByFailing(s.(calls := SetPhase(s.calls, c, Closing)), replies);
    }
  }

  lemma {:induction false} MatchedByAcquire(s: State, c: nat, writeOk: bool, replies: seq<Reply>)
    requires LockOk(s.lock, s.pending, s.calls) && Matched(s, replies)
    requires CanMove(s, c, Acquire(writeOk))
    ensures Matched(AcquireLock(s, c, writeOk), replies)
  {
    if s.closed || s.transportClosed {
      MatchedByFinish(s, c, ConnectionClosed, replies);
    } else if !writeOk {
      MatchedByBreak(s, c, ConnectionClosed, replies);
    } else {
      MatchedByWrite(s, c, replies);
    }
  }

  lemma {:induction false} MatchedBySend(s: State, c: nat, drainOk: bool, replies: seq<Reply>)
    requires LockOk(s.lock, s.pending, s.calls) && Matched(s, replies)
    requires CanMove(s, c, SendReturns(drainOk))
    ensures Matched(AfterSend(s, c, drainOk), replies)
  {
  }

  lemma {:induction false} MatchedByResume(s: State, c: nat, replies: seq<Reply>)
    requires LockOk(s.lock, s.pending, s.calls) && Matched(s, replies) && CanMove(s, c, Resume)
    ensures Matched(MakeMove(s, c, Resume), replies)
  {
    if s.calls[c].phase.future.Failed? {
      MatchedByFinish(s, c, ConnectionClosed, replies);
    } else {
      MatchedByResult(s, c, replies);
    }
  }

  lemma {:induction false} MatchedByMove(s: State, c: nat, m: Move, replies: seq<Reply>)
    requires LockOk(s.lock, s.pending, s.calls) && Matched(s, replies) && CanMove(s, c, m)
    requires m.Cancel? ==> s.closed || s.lock != Some(c) || |replies| == |s.wire|
    ensures Matched(MakeMove(s, c, m), replies)
  {
    match m
    case Begin(line) =>
    case Acquire(writeOk) => MatchedByAcquire(s, c, writeOk, replies);
    case SendReturns(drainOk) => MatchedBySend(s, c, drainOk, replies);
    case Expire => MatchedByPhase(s, c, Expired, replies);
    case CloseAfterTimeout(quitOk) => MatchedByTimeoutClose(s, c, quitOk, replies);
    case FinishClosing => MatchedByBreak(s, c, TimedOut, replies);
    case Resume => MatchedByResume(s, c, replies);
    case Wake => MatchedByPhase(s, c, LoopHead(s.config, |s.calls[c].attempts|), replies);
    case Cancel => MatchedByFinish(s, c, Cancelled, replies);
  }

  /** A finished response goes to the call that wrote the line it answers, if that call still waits. */
  lemma {:induction false} MatchedByReply(s: State, parsed: Result<ErrorLine, ParseError>, replies: seq<Reply>)
    requires LockOk(s.lock, s.pending, s.calls) && Matched(s, replies) && !s.closed
    requires |replies| < |s.wire|
    ensures var data := s.dataBuffer;
            var calls := if parsed.Ok? then Settle(s.calls, s.pending, Resolved(data, parsed.value))
                         else Settle(s.calls, s.pending, Failed);
            var more := replies + [Reply(data, parsed)];
            (parsed.Ok? ==> Matched(s.(dataBuffer := [], calls := calls), more)) &&
            forall c :: c in calls ==> CallMatches(calls[c], more)
  {
    var more := replies + [Reply(s.dataBuffer, parsed)];
    forall c | c in s.calls ensures CallMatches(s.calls[c], more) {
      CallMatchesLater(s.calls[c], replies, more);
    }
  }

  lemma {:induction false} MatchedByLine(s: State, line: Line, kind: Kind, parsed: Result<ErrorLine, ParseError>,
                                         replies: seq<Reply>)
    requires LockOk(s.lock, s.pending, s.calls) && Matched(s, replies) && !s.closed
    requires kind.Data? || kind.Terminator? ==> |replies| < |s.wire|
    ensures Matched(OnLine(s, line, kind, parsed), RepliesWith(replies, s.dataBuffer, kind, parsed))
  {
    if kind.Terminator? {
      MatchedByReply(s, parsed, replies);
    }
  }

  lemma {:induction false} StepKeepsMatched(s: State, a: Action)
    requires Safe(s) && Matched(s, RepliesSoFar(s))
    requires Enabled(s, a) && Conforming(s, a)
    ensures Matched(Step(s, a), RepliesSoFar(Step(s, a)))
  {
    var replies := RepliesSoFar(s);
    if a.Receive? {
      RepliesNext(s.received, a.line);
      LineIsKept(s.(received := s.received + [a.line]), a.line, KindOf(a.line), ParsedError(a.line));
      MatchedByLine(s.(received := s.received + [a.line]), a.line, KindOf(a.line), ParsedError(a.line), replies);
    } else {
      OnlyReceivingReceives(s, a);
      match a
      case Exec(c, m) => MatchedByMove(s, c, m, replies);
      case EndOfStream => MatchedByClosing(s, a, replies);
      case Close(_) => MatchedByClosing(s, a, replies);
      case _ =>
    }
  }

  lemma {:induction false} LineIsKept(s: State, line: Line, kind: Kind, parsed: Result<ErrorLine, ParseError>)
    ensures OnLine(s, line, kind, parsed).received == s.received
  {
  }

  // ----- Whole runs -----

  lemma {:induction false} ConformingRunIsMatched(config: Config, now: real, actions: seq<Action>)
    requires ConformingRun(Initial(config, now), actions)
    ensures var s := Run(Initial(config, now), actions); Safe(s) && Matched(s, RepliesSoFar(s))
  {
    RunIsSafe(config, now, actions);
    if |actions| == 0 {
    } else {
      var before, a := actions[..|actions| - 1], actions[|actions| - 1];
      ConformingRunIsMatched(config, now, before);
      var s := Run(Initial(config, now), before);
      if Enabled(s, a) {
        StepKeepsMatched(s, a);
      }
    }
  }

  /** The states that runs with an orderly server reach. */
  ghost predicate Reaches(config: Config, now: real, actions: seq<Action>, s: State) {
    ConformingRun(Initial(config, now), actions) && s == Run(Initial(config, now), actions)
  }

  /**
   While open, at most one command is unanswered; what is buffered is the data of its response so far;
   and a call whose future is open holds the lock and the pending slot, and wrote that last command.
   */
  lemma {:induction false} AtMostOneUnanswered(config: Config, now: real, actions: seq<Action>, s: State)
    requires Reaches(config, now, actions, s) && !s.closed
    ensures var sorted := Sort(s.received);
            && |sorted.responses| <= |s.wire| <= |sorted.responses| + 1
            && s.dataBuffer == sorted.partial
            && (|sorted.responses| == |s.wire| ==> s.dataBuffer == [])
            && (|sorted.responses| < |s.wire| && !s.transportClosed ==> s.lock.Some?)
    ensures forall c :: c in s.calls && IsUnresolved(s.calls[c].phase) ==>
              && s.lock == s.pending == Some(c)
              && |s.wire| == |Sort(s.received).responses| + 1
              && s.wire[|s.wire| - 1] == Issued(c, s.calls[c].line)
  {
    ConformingRunIsMatched(config, now, actions);
    forall c | c in s.calls && IsUnresolved(s.calls[c].phase)
      ensures s.lock == s.pending == Some(c) && |s.wire| == |RepliesSoFar(s)| + 1
      ensures s.wire[|s.wire| - 1] == Issued(c, s.calls[c].line)
    {
      WaitingCallWroteLast(s, c);
    }
  }

  lemma {:induction false} WaitingCallWroteLast(s: State, c: nat)
    requires LockOk(s.lock, s.pending, s.calls) && CallsOk(s.config, s.now, s.wire, s.calls)
    requires InFlightOk(s, |RepliesSoFar(s)|) && !s.closed
    requires c in s.calls && IsUnresolved(s.calls[c].phase)
    ensures s.lock == s.pending == Some(c) && |s.wire| == |RepliesSoFar(s)| + 1
    ensures s.wire[|s.wire| - 1] == Issued(c, s.calls[c].line)
  {
  }

  /** The `slot`-th line written is this call's line, and the server's `slot`-th response gave this answer. */
  ghost predicate AnsweredBy(s: State, c: nat, slot: nat, data: seq<Line>, error: ErrorLine)
    requires c in s.calls
  {
    var responses := Sort(s.received).responses;
    && slot < |s.wire| && slot < |responses|
    && s.wire[slot] == Issued(c, s.calls[c].line)
    && responses[slot].data == data
    && ParsedError(responses[slot].terminator) == Ok(error)
  }

  lemma {:induction false} RepliesAt(responses: seq<Response>, k: nat)
    requires k < |responses|
    ensures Replies(responses)[k] == Reply(responses[k].data, ParsedError(responses[k].terminator))
  {
    if k < |responses| - 1 {
      RepliesAt(responses[..|responses| - 1], k);
    }
  }

  lemma {:induction false} ReachedCallIsOk(config: Config, now: real, actions: seq<Action>, s: State, c: nat)
    requires Reaches(config, now, actions, s) && c in s.calls
    ensures CallOk(s.config, s.now, s.wire, c, s.calls[c]) && CallMatches(s.calls[c], RepliesSoFar(s))
  {
    ConformingRunIsMatched(config, now, actions);
  }

  lemma {:induction false} AnswerIsOwn(s: State, c: nat, k: nat)
    requires c in s.calls && k < |s.calls[c].attempts|
    requires CallOk(s.config, s.now, s.wire, c, s.calls[c]) && CallMatches(s.calls[c], RepliesSoFar(s))
    ensures var attempt := s.calls[c].attempts[k];
            attempt.answer.Some? ==>
              AnsweredBy(s, c, attempt.slot, attempt.answer.value.data, attempt.answer.value.error)
  {
    var attempt := s.calls[c].attempts[k];
    if attempt.answer.Some? {
      RepliesAt(Sort(s.received).responses, attempt.slot);
    }
  }

  /**
   Response matching: in every run with an orderly server, every answer a call has taken is the
   server's response to one of the lines that call wrote.
   */
  lemma {:induction false} AnswersAreOwn(config: Config, now: real, actions: seq<Action>, s: State, c: nat, k: nat)
    requires Reaches(config, now, actions, s) && c in s.calls && k < |s.calls[c].attempts|
    ensures var attempt := s.calls[c].attempts[k];
            attempt.answer.Some? ==>
              AnsweredBy(s, c, attempt.slot, attempt.answer.value.data, attempt.answer.value.error)
  {
    ReachedCallIsOk(config, now, actions, s, c);
    AnswerIsOwn(s, c, k);
  }

  /** What an outcome owes to a response. */
  ghost predicate OutcomeIsOwn(s: State, c: nat, slot: nat, answer: Answer, outcome: Outcome)
    requires c in s.calls
  {
    && AnsweredBy(s, c, slot, answer.data, answer.error)
    && match outcome
       case Rows(records) => answer.error.id == 0 && records == BlockRecords(answer.data)
       case QueryFailed(error) => error == answer.error && error.id != 0 && error.id != 524
       case Flooded(error) => error == answer.error && error.id == 524
       case _ => false
  }

  predicate HasAnswer(outcome: Outcome) {
    outcome.Rows? || outcome.QueryFailed? || outcome.Flooded?
  }

  lemma {:induction false} AnsweredOutcome(config: Config, call: Call, outcome: Outcome)
    requires OutcomeOk(config, call, outcome) && HasAnswer(outcome)
    ensures |call.attempts| > 0 && LastAttempt(call).answer.Some?
    ensures var answer := LastAttempt(call).answer.value;
            match outcome
            case Rows(records) => answer.error.id == 0 && records == BlockRecords(answer.data)
            case QueryFailed(error) => error == answer.error && error.id != 0 && error.id != 524
            case Flooded(error) => error == answer.error && error.id == 524
            case _ => false
  {
  }

  lemma {:induction false} LastAnswerDecides(s: State, c: nat)
    requires c in s.calls && CallOk(s.config, s.now, s.wire, c, s.calls[c])
    requires s.calls[c].phase.Finished? && HasAnswer(s.calls[c].phase.outcome)
    ensures |s.calls[c].attempts| > 0 && LastAttempt(s.calls[c]).answer.Some?
    ensures OutcomeOk(s.config, s.calls[c], s.calls[c].phase.outcome)
  {
    assert CallOk(s.config, s.now, s.wire, c, s.calls[c]);
    AnsweredOutcome(s.config, s.calls[c], s.calls[c].phase.outcome);
  }

  lemma {:induction false} LastAnswerIsOwn(s: State, c: nat)
    requires c in s.calls
    requires CallOk(s.config, s.now, s.wire, c, s.calls[c]) && CallMatches(s.calls[c], RepliesSoFar(s))
    requires s.calls[c].phase.Finished? && HasAnswer(s.calls[c].phase.outcome)
    ensures |s.calls[c].attempts| > 0 && LastAttempt(s.calls[c]).answer.Some?
    ensures var last := LastAttempt(s.calls[c]);
            AnsweredBy(s, c, last.slot, last.answer.value.data, last.answer.value.error)
  {
    LastAnswerDecides(s, c);
    AnswerIsOwn(s, c, |s.calls[c].attempts| - 1);
  }

  lemma {:induction false} ResultIsOwn(s: State, c: nat) returns (slot: nat, answer: Answer)
    requires c in s.calls
    requires CallOk(s.config, s.now, s.wire, c, s.calls[c]) && CallMatches(s.calls[c], RepliesSoFar(s))
    requires s.calls[c].phase.Finished? && HasAnswer(s.calls[c].phase.outcome)
    ensures OutcomeIsOwn(s, c, slot, answer, s.calls[c].phase.outcome)
  {
    LastAnswerDecides(s, c);
    LastAnswerIsOwn(s, c);
    slot, answer := LastAttempt(s.calls[c]).slot, LastAttempt(s.calls[c]).answer.value;
    OutcomeFromAnswer(s, c, slot, answer);
  }

  lemma {:induction false} OutcomeFromAnswer(s: State, c: nat, slot: nat, answer: Answer)
    requires c in s.calls && s.calls[c].phase.Finished? && HasAnswer(s.calls[c].phase.outcome)
    requires |s.calls[c].attempts| > 0 && LastAttempt(s.calls[c]).answer == Some(answer)
    requires OutcomeOk(s.config, s.calls[c], s.calls[c].phase.outcome)
    requires AnsweredBy(s, c, slot, answer.data, answer.error)
    ensures OutcomeIsOwn(s, c, slot, answer, s.calls[c].phase.outcome)
  {
    AnsweredOutcome(s.config, s.calls[c], s.calls[c].phase.outcome);
  }

  /** What a finished call returns or raises comes from the response to a line it wrote itself. */
  lemma {:induction false} ResultsAreOwn(config: Config, now: real, actions: seq<Action>, s: State, c: nat)
    returns (slot: nat, answer: Answer)
    requires Reaches(config, now, actions, s) && c in s.calls
    requires s.calls[c].phase.Finished? && HasAnswer(s.calls[c].phase.outcome)
    ensures OutcomeIsOwn(s, c, slot, answer, s.calls[c].phase.outcome)
  {
    ReachedCallIsOk(config, now, actions, s, c);
    slot, answer := ResultIsOwn(s, c);
  }

  // ----- Why cancelling an unanswered command is ruled out -----

  /** On a matched state, cancelling keeps the matching exactly when the assumption allows the cancelling. */
  lemma {:induction false} CancelIsHarmlessIffAllowed(s: State, c: nat)
    requires Safe(s) && Matched(s, RepliesSoFar(s)) && CanMove(s, c, Cancel)
    ensures Matched(Step(s, Exec(c, Cancel)), RepliesSoFar(Step(s, Exec(c, Cancel))))
            <==> Conforming(s, Exec(c, Cancel))
  {
    if Conforming(s, Exec(c, Cancel)) {
      StepKeepsMatched(s, Exec(c, Cancel));
    }
  }

  /** The cancelled call leaves, and the next one writes its line. */
  function NextWriter(s: State, c: nat, d: nat): State {
    Next(Next(Next(s, Exec(c, Cancel)), Exec(d, Acquire(true))), Exec(d, SendReturns(true)))
  }

  lemma {:induction false} NextWriterWaits(s: State, c: nat, d: nat)
    requires !s.closed && !s.transportClosed && s.lock == Some(c) && CanMove(s, c, Cancel)
    requires d in s.calls && d != c && s.calls[d].phase.Queued?
    ensures var t := NextWriter(s, c, d);
            && d in t.calls && t.calls[d].phase == Awaiting(Unresolved) && t.pending == Some(d)
            && t.calls[d].attempts == s.calls[d].attempts + [Attempt(|s.wire|, s.now, None)]
            && t.wire == s.wire + [Issued(d, s.calls[d].line)]
            && t.received == s.received && t.dataBuffer == s.dataBuffer
  {
  }

  /** A call whose line is number `own` on the wire has taken response number `own - 1`, the last one there is. */
  ghost predicate Misled(t: State, d: nat, own: nat) {
    && d in t.calls
    && |t.calls[d].attempts| > 0
    && LastAttempt(t.calls[d]).slot == own
    && own < |t.wire| && t.wire[own] == Issued(d, t.calls[d].line)
    && 0 < own == |RepliesSoFar(t)|
    && (var answer := LastAttempt(t.calls[d]).answer;
        answer.Some? && IsReplyAt(RepliesSoFar(t), own - 1, answer.value.data, answer.value.error))
  }

  /**
   Otherwise it goes wrong for every such call: if a call is cancelled while its line is unanswered,
   the next call that writes takes the response to the cancelled line as its own, before the server
   has said anything about its own line.
   */
  lemma {:induction false} CancelMisleadsNextCaller(s: State, c: nat, d: nat, line: Line)
    requires Safe(s) && Matched(s, RepliesSoFar(s)) && CanMove(s, c, Cancel)
    requires !Conforming(s, Exec(c, Cancel))
    requires d in s.calls && s.calls[d].phase.Queued?
    requires KindOf(line).Terminator? && ParsedError(line).Ok?
    ensures Misled(Next(ReceiveLine(NextWriter(s, c, d), line), Exec(d, Resume)), d, |s.wire|)
  {
    UnansweredWhenRefused(s, c);
    UnansweredMisleads(s, c, d, line);
  }

  lemma {:induction false} UnansweredMisleads(s: State, c: nat, d: nat, line: Line)
    requires !s.closed && !s.transportClosed && s.lock == Some(c) && CanMove(s, c, Cancel)
    requires |RepliesSoFar(s)| + 1 == |s.wire| && s.dataBuffer == Sort(s.received).partial
    requires d in s.calls && d != c && s.calls[d].phase.Queued?
    requires KindOf(line).Terminator? && ParsedError(line).Ok?
    ensures Misled(Next(ReceiveLine(NextWriter(s, c, d), line), Exec(d, Resume)), d, |s.wire|)
  {
    NextWriterWaits(s, c, d);
    NextReplyMisleads(s, NextWriter(s, c, d), d, line);
  }

  lemma {:induction false} UnansweredWhenRefused(s: State, c: nat)
    requires Safe(s) && Matched(s, RepliesSoFar(s)) && CanMove(s, c, Cancel)
    requires !Conforming(s, Exec(c, Cancel))
    ensures !s.closed && !s.transportClosed && s.lock == Some(c) && |RepliesSoFar(s)| + 1 == |s.wire|
    ensures s.dataBuffer == Sort(s.received).partial && Holds(s.calls[c].phase)
  {
  }

  lemma {:induction false} NextReplyMisleads(s: State, t: State, d: nat, line: Line)
    requires d in t.calls && t.calls[d].phase == Awaiting(Unresolved) && t.pending == Some(d)
    requires |t.calls[d].attempts| > 0 && LastAttempt(t.calls[d]).slot == |s.wire|
    requires t.wire == s.wire + [Issued(d, t.calls[d].line)]
    requires t.received == s.received && t.dataBuffer == s.dataBuffer == Sort(s.received).partial
    requires |RepliesSoFar(s)| + 1 == |s.wire|
    requires KindOf(line).Terminator? && ParsedError(line).Ok?
    ensures Misled(Next(ReceiveLine(t, line), Exec(d, Resume)), d, |s.wire|)
  {
    var error := ParsedError(line).value;
    TerminatorSettles(t, d, line, error);
    RepliesNext(s.received, line);
    ResultMisleads(t, ReceiveLine(t, line), d, |s.wire|, error);
  }

  lemma {:induction false} ResultMisleads(t: State, u: State, d: nat, own: nat, error: ErrorLine)
    requires d in t.calls && |t.calls[d].attempts| > 0 && LastAttempt(t.calls[d]).slot == own
    requires own < |t.wire| && t.wire[own] == Issued(d, t.calls[d].line)
    requires d in u.calls && u.calls[d] == t.calls[d].(phase := Awaiting(Resolved(t.dataBuffer, error)))
    requires u.wire == t.wire
    requires 0 < own == |RepliesSoFar(u)| && RepliesSoFar(u)[own - 1] == Reply(t.dataBuffer, Ok(error))
    ensures Misled(Next(u, Exec(d, Resume)), d, own)
  {
    ResultTaken(u, d);
  }

  lemma {:induction false} ResultTaken(u: State, d: nat)
    requires d in u.calls && u.calls[d].phase.Awaiting? && u.calls[d].phase.future.Resolved?
    ensures var v := Next(u, Exec(d, Resume));
            var future := u.calls[d].phase.future;
            && v.received == u.received && v.wire == u.wire && d in v.calls && v.calls[d].line == u.calls[d].line
            && v.calls[d].attempts == RecordAnswer(u.calls[d].attempts, Answer(future.data, future.error, u.now))
  {
  }

  lemma {:induction false} TerminatorSettles(t: State, d: nat, line: Line, error: ErrorLine)
    requires d in t.calls && t.calls[d].phase == Awaiting(Unresolved) && t.pending == Some(d)
    requires KindOf(line).Terminator? && ParsedError(line) == Ok(error)
    ensures ReceiveLine(t, line) ==
            t.(received := t.received + [line], dataBuffer := [],
               calls := SetPhase(t.calls, d, Awaiting(Resolved(t.dataBuffer, error))))
  {
  }

  // ----- A run in which this happens -----

  /** Two callers, and the first one writes. */
  function TwoCallers(line: Line): seq<Action> {
    [Exec(0, Begin(line)), Exec(1, Begin(line)), Exec(0, Acquire(true))]
  }

  /** The first caller is cancelled, the second one writes, and the server answers the first line. */
  function CancelAndAnswer(terminator: Line): seq<Action> {
    [Exec(0, Cancel), Exec(1, Acquire(true)), Exec(1, SendReturns(true)), Receive(terminator), Exec(1, Resume)]
  }

  lemma {:induction false} TwoCallersRun(config: Config, now: real, line: Line)
    requires config.floodRetries >= 0
    ensures ConformingRun(Initial(config, now), TwoCallers(line))
    ensures var s := Run(Initial(config, now), TwoCallers(line));
            s == Initial(config, now).(
                   calls := map[0 := Call(line, Draining(Unresolved), [Attempt(0, now, None)]),
                                1 := Call(line, Queued, [])],
                   lock := Some(0), pending := Some(0), wire := [Issued(0, line)])
  {
    var s0, a := Initial(config, now), TwoCallers(line);
    assert a[..0] == [] && a[..1] == a[..0] + [a[0]] && a[..2] == a[..1] + [a[1]] && a == a[..2] + [a[2]];
    assert a[..1][..0] == a[..0] && a[..2][..1] == a[..1];
    RunNext(s0, a[..0], a[0]);
    RunNext(s0, a[..1], a[1]);
    RunNext(s0, a[..2], a[2]);
    var waiting, attempts := Call(line, Queued, []), [Attempt(0, now, None)];
    var s1 := s0.(calls := map[0 := waiting]);
    var s2 := s1.(calls := map[0 := waiting, 1 := waiting]);
    assert Run(s0, a[..1]) == s1;
    assert Run(s0, a[..2]) == s2;
    assert [] + attempts == attempts && [] + [Issued(0, line)] == [Issued(0, line)];
    assert Run(s0, a) == AcquireLock(s2, 0, true);
    TwoCallersConform(s0, line);
  }

  /** No step of it is a received line or a cancelling, so there is nothing to conform to. */
  lemma {:induction false} TwoCallersConform(s: State, line: Line)
    ensures ConformingRun(s, TwoCallers(line))
  {
    var a := TwoCallers(line);
    ConformingRunNext(s, [], a[0]);
    ConformingRunNext(s, [a[0]], a[1]);
    ConformingRunNext(s, [a[0]] + [a[1]], a[2]);
    assert [] + [a[0]] == [a[0]] && [a[0]] + [a[1]] + [a[2]] == a;
  }

  lemma {:induction false} ConformingRunNext(s: State, actions: seq<Action>, a: Action)
    requires ConformingRun(s, actions) && Conforming(Run(s, actions), a)
    ensures ConformingRun(s, actions + [a])
  {
    assert (actions + [a])[..|actions|] == actions;
  }

  /** Such a state is reached: an orderly run leads to a cancelling that is possible but not allowed. */
  lemma {:induction false} RefusedCancelIsReached(config: Config, now: real, line: Line)
    requires config.floodRetries >= 0
    ensures var s := Run(Initial(config, now), TwoCallers(line));
            && Reaches(config, now, TwoCallers(line), s)
            && CanMove(s, 0, Cancel) && !Conforming(s, Exec(0, Cancel))
            && 1 in s.calls && s.calls[1].phase.Queued?
  {
    TwoCallersRun(config, now, line);
  }

  lemma {:induction false} LastFive(s: State, actions: seq<Action>, terminator: Line)
    ensures Run(s, actions + CancelAndAnswer(terminator)) ==
            Next(Next(NextWriter(Run(s, actions), 0, 1), Receive(terminator)), Exec(1, Resume))
  {
    var b := CancelAndAnswer(terminator);
    RunNext(s, actions, b[0]);
    RunNext(s, actions + b[..1], b[1]);
    RunNext(s, actions + b[..2], b[2]);
    RunNext(s, actions + b[..3], b[3]);
    RunNext(s, actions + b[..4], b[4]);
    assert actions + b[..1] == actions + [b[0]];
    assert actions + b[..2] == actions + b[..1] + [b[1]];
    assert actions + b[..3] == actions + b[..2] + [b[2]];
    assert actions + b[..4] == actions + b[..3] + [b[3]];
    assert actions + b == actions + b[..4] + [b[4]];
  }

  /** Waiting for its answer, the writer takes a good terminator for it and returns the rows received so far. */
  lemma {:induction false} ReturnsRows(t: State, d: nat, line: Line, error: ErrorLine)
    requires t.receiving && d in t.calls && t.calls[d].phase == Awaiting(Unresolved) && t.pending == Some(d)
    requires KindOf(line).Terminator? && ParsedError(line) == Ok(error) && error.Good()
    ensures var u := Next(Next(t, Receive(line)), Exec(d, Resume));
            d in u.calls && u.calls[d].phase == Finished(Rows(BlockRecords(t.dataBuffer)))
  {
    TerminatorSettles(t, d, line, error);
    TakesRows(ReceiveLine(t, line), d, t.dataBuffer, error);
  }

  lemma {:induction false} TakesRows(u: State, d: nat, data: seq<Line>, error: ErrorLine)
    requires d in u.calls && u.calls[d].phase == Awaiting(Resolved(data, error)) && error.Good()
    ensures d in Next(u, Exec(d, Resume)).calls
    ensures Next(u, Exec(d, Resume)).calls[d].phase == Finished(Rows(BlockRecords(data)))
  {
    assert Next(u, Exec(d, Resume)) == TakeResult(u, d);
    GoodAnswerIsRows(u.config, u.now, |u.calls[d].attempts|, Answer(data, error, u.now));
  }

  lemma {:induction false} GoodAnswerIsRows(config: Config, now: real, attempts: nat, answer: Answer)
    requires answer.error.Good()
    ensures AfterAnswer(config, now, attempts, answer) == Finished(Rows(BlockRecords(answer.data)))
  {
  }

  /**
   In this run the first caller's response, an ordinary `error id=0 msg=ok`, makes the second caller
   return no rows, as if its own command had been carried out; the server has not answered that one yet.
   */
  lemma {:induction false} CancelMisleadsInARun(config: Config, now: real, line: Line)
    requires config.floodRetries >= 0
    ensures ConformingRun(Initial(config, now), TwoCallers(line))
    ensures var t := Run(Initial(config, now), TwoCallers(line) + CancelAndAnswer(Codec.Terminator(Codec.OK_ROW)));
            Misled(t, 1, 1) && t.calls[1].phase == Finished(Rows([]))
  {
    var s, terminator := Run(Initial(config, now), TwoCallers(line)), Codec.Terminator(Codec.OK_ROW);
    TwoCallersRun(config, now, line);
    RefusedCancelIsReached(config, now, line);
    ConformingRunIsMatched(config, now, TwoCallers(line));
    LastFive(Initial(config, now), TwoCallers(line), terminator);
    OkTerminatorEnds();
    WriterKeepsReceiving(s);
    CancelMisleadsNextCaller(s, 0, 1, terminator);
    NextWriterWaits(s, 0, 1);
    ReturnsRows(NextWriter(s, 0, 1), 1, terminator, ErrorLine(0, "ok", map[]));
  }

  lemma {:induction false} OkTerminatorEnds()
    ensures KindOf(Codec.Terminator(Codec.OK_ROW)).Terminator?
    ensures ParsedError(Codec.Terminator(Codec.OK_ROW)) == Ok(ErrorLine(0, "ok", map[]))
  {
    Codec.OkTerminator();
    ErrorLineIsResponseLine(Codec.Terminator(Codec.OK_ROW));
  }

  lemma {:induction false} WriterKeepsReceiving(s: State)
    requires s.receiving && !s.closed && s.lock == Some(0) && CanMove(s, 0, Cancel) && !s.transportClosed
    requires 1 in s.calls && s.calls[1].phase.Queued?
    ensures NextWriter(s, 0, 1).receiving
  {
  }
}

/** What follows for every run: the wire, the closed state, the events, and the flood retries. */
module SessionTheorems {
  import opened Sequences
  import opened Protocol
  import opened Demux
  import opened Session
  import opened SessionSafety
  import Flood

  lemma {:induction false} RunKeepsSafe(s: State, actions: seq<Action>)
    requires Safe(s)
    ensures Safe(Run(s, actions))
  {
    if |actions| == 0 {
    } else {
      var before, a := actions[..|actions| - 1], actions[|actions| - 1];
      RunKeepsSafe(s, before);
      if Enabled(Run(s, before), a) {
        StepKeepsSafe(Run(s, before), a);
      }
    }
  }

  // ----- The wire -----

  /** In every run the lines written are commands, and only the very last one can be `quit`. */
  lemma {:induction false} WireIsCommandsThenQuit(config: Config, now: real, actions: seq<Action>, i: nat)
    requires i < |Run(Initial(config, now), actions).wire|
    ensures var s := Run(Initial(config, now), actions);
            s.wire[i].Quit? ==> i == |s.wire| - 1 && s.closed
  {
    RunIsSafe(config, now, actions);
  }

  lemma {:induction false} ClosedStep(s: State, a: Action)
    requires Safe(s) && s.closed
    ensures Next(s, a).closed && Next(s, a).wire == s.wire
    ensures Next(s, a).received == s.received && Next(s, a).log.published == s.log.published
  {
    if Enabled(s, a) {
      WireKept(s, a);
      OnlyReceivingReceives(s, a);
    }
  }

  /** Once closed, always closed: nothing is written, received or published any more. */
  lemma {:induction false} ClosedForGood(s: State, actions: seq<Action>)
    requires Safe(s) && s.closed
    ensures Run(s, actions).closed && Run(s, actions).wire == s.wire
    ensures Run(s, actions).received == s.received && Run(s, actions).log.published == s.log.published
  {
    if |actions| == 0 {
    } else {
      var before := actions[..|actions| - 1];
      ClosedForGood(s, before);
      RunKeepsSafe(s, before);
      ClosedStep(Run(s, before), actions[|actions| - 1]);
    }
  }

  /** Closing leaves nothing hanging: no receive loop, no open future, and one sentinel ends the queue. */
  lemma {:induction false} ClosedLeavesNothingOpen(config: Config, now: real, actions: seq<Action>, s: State)
    requires s == Run(Initial(config, now), actions) && s.closed
    ensures !s.receiving
    ensures forall c :: c in s.calls ==> !IsUnresolved(s.calls[c].phase)
    ensures |s.log.queue| > 0 && s.log.queue[|s.log.queue| - 1] == Sentinel
    ensures forall i :: 0 <= i < |s.log.queue| - 1 ==> s.log.queue[i].Event?
  {
    RunIsSafe(config, now, actions);
  }

  /** The steps that close an open connection from this side, and whether the send of `quit` succeeds. */
  predicate ClosesHere(a: Action, quitOk: bool) {
    a == Close(quitOk) || (a.Exec? && a.move == CloseAfterTimeout(quitOk))
  }

  /**
   Closing an open connection from this side writes `quit`, if the transport is open and the send succeeds,
   and that stays the last line in every continuation.
   */
  lemma {:induction false} ClosingWritesQuit(s: State, a: Action, quitOk: bool, more: seq<Action>)
    requires Safe(s) && !s.closed && Enabled(s, a) && ClosesHere(a, quitOk)
    ensures Run(Step(s, a), more).closed
    ensures Run(Step(s, a), more).wire == if !s.transportClosed && quitOk then s.wire + [Quit] else s.wire
  {
    ClosingStepWritesQuit(s, a, quitOk);
    StepKeepsSafe(s, a);
    ClosedForGood(Step(s, a), more);
  }

  lemma {:induction false} ClosingStepWritesQuit(s: State, a: Action, quitOk: bool)
    requires !s.closed && Enabled(s, a) && ClosesHere(a, quitOk)
    ensures Step(s, a).closed
    ensures Step(s, a).wire == if !s.transportClosed && quitOk then s.wire + [Quit] else s.wire
  {
  }

  /** No other step writes one. */
  lemma {:induction false} OnlyClosingWritesQuit(s: State, a: Action)
    requires Enabled(s, a) && Step(s, a).wire == s.wire + [Quit]
    ensures ClosesHere(a, true) && !s.closed && !s.transportClosed
  {
    var t := Step(s, a);
    assert |t.wire| == |s.wire| + 1 && t.wire[|s.wire|] == Quit;
    if a.Receive? {
      LineTouchesOnlyItsOwn(s.(received := s.received + [a.line]), a.line, KindOf(a.line), ParsedError(a.line));
    }
  }

  // ----- Waiters after the closing -----

  function Takes(actions: seq<Action>): nat {
    if |actions| == 0 then 0
    else Takes(actions[..|actions| - 1]) + (if actions[|actions| - 1].TakeEvent? then 1 else 0)
  }

  /** What the next `k` waiters get when `rest` is left: those events in order, then the closing, for good. */
  function Handout(rest: seq<Line>, k: nat): seq<QueueItem> {
    if k <= |rest| then AsEvents(rest[..k]) else AsEvents(rest) + Sentinels(k - |rest|)
  }

  lemma {:induction false} HandoutNext(rest: seq<Line>, k: nat)
    ensures Handout(rest, k + 1) == Handout(rest, k) + [if k < |rest| then Event(rest[k]) else Sentinel]
  {
  }

  function Rest(log: EventLog): seq<Line>
    requires |log.fates| <= |log.published|
  {
    log.published[|log.fates|..]
  }

  /** Between takes the log of a closed session does not move. */
  lemma {:induction false} ClosedLogStep(s: State, a: Action)
    requires s.closed && !s.receiving && |s.log.queue| > 0
    ensures Next(s, a).log == if a.TakeEvent? then Take(s.log) else s.log
  {
  }

  /** A call touches the event queue only when its timeout closes the session. */
  lemma {:induction false} MoveAndLog(s: State, c: nat, m: Move)
    requires CanMove(s, c, m)
    ensures MakeMove(s, c, m).log ==
            if m.CloseAfterTimeout? && !s.closed then Put(s.log, s.config.queueSize, Sentinel) else s.log
  {
  }

  lemma {:induction false} ClosedTake(log: EventLog, size: int)
    requires QueueOk(log, size, true)
    ensures Take(log).published == log.published
    ensures if |Rest(log)| > 0
            then Take(log).fates == log.fates + [Delivered] && Take(log).handed == log.handed + [Event(Rest(log)[0])]
            else Take(log).fates == log.fates && Take(log).handed == log.handed + [Sentinel]
  {
  }

  /**
   After the closing, whatever else happens, the waiters get the events that were still queued, in
   order, and from then on every waiter is told that the connection is closed.
   */
  lemma {:induction false} WaitersDrainClosedQueue(s: State, actions: seq<Action>)
    requires Safe(s) && s.closed
    ensures Run(s, actions).log.handed == s.log.handed + Handout(Rest(s.log), Takes(actions))
    ensures var log := Run(s, actions).log;
            && log.published == s.log.published
            && |log.fates| == |s.log.fates| +
                              (if Takes(actions) <= |Rest(s.log)| then Takes(actions) else |Rest(s.log)|)
  {
    if |actions| == 0 {
      assert Handout(Rest(s.log), 0) == [];
      assert s.log.handed + [] == s.log.handed;
    } else {
      var before, a := actions[..|actions| - 1], actions[|actions| - 1];
      WaitersDrainClosedQueue(s, before);
      RunKeepsSafe(s, before);
      ClosedForGood(s, before);
      DrainStep(s.log, Run(s, before), a, Takes(before));
    }
  }

  lemma {:induction false} DrainStep(start: EventLog, t: State, a: Action, k: nat)
    requires Safe(t) && t.closed && |start.fates| <= |start.published|
    requires t.log.published == start.published
    requires t.log.handed == start.handed + Handout(Rest(start), k)
    requires |t.log.fates| == |start.fates| + (if k <= |Rest(start)| then k else |Rest(start)|)
    ensures var n := if a.TakeEvent? then k + 1 else k;
            && Next(t, a).log.published == start.published
            && Next(t, a).log.handed == start.handed + Handout(Rest(start), n)
            && |Next(t, a).log.fates| == |start.fates| + (if n <= |Rest(start)| then n else |Rest(start)|)
  {
    ClosedLogStep(t, a);
    if a.TakeEvent? {
      ClosedTake(t.log, t.config.queueSize);
      HandoutNext(Rest(start), k);
    }
  }

  // ----- Events -----

  /** A step loses an event only by dropping the oldest queued one, and only from a full queue. */
  lemma {:induction false} OnlyOldestIsDropped(s: State, a: Action)
    requires s.config.queueSize > 0 ==> |s.log.queue| <= s.config.queueSize
    requires Enabled(s, a)
    ensures var fates := Step(s, a).log.fates;
            || fates == s.log.fates
            || (fates == s.log.fates + [Delivered] && a.TakeEvent?)
            || (fates == s.log.fates + [Dropped] && 0 < s.config.queueSize == |s.log.queue|)
  {
    if a.Receive? {
      DropsOnLine(s.(received := s.received + [a.line]), a.line, KindOf(a.line), ParsedError(a.line));
    } else {
      PutIsTrimThenAppend(s.log, s.config.queueSize, Sentinel);
      if a.Exec? {
        MoveAndLog(s, a.caller, a.move);
      }
    }
  }

  lemma {:induction false} DropsOnLine(s: State, line: Line, kind: Kind, parsed: Result<ErrorLine, ParseError>)
    requires s.config.queueSize > 0 ==> |s.log.queue| <= s.config.queueSize
    ensures var fates := OnLine(s, line, kind, parsed).log.fates;
            fates == s.log.fates
            || (fates == s.log.fates + [Dropped] && 0 < s.config.queueSize == |s.log.queue|)
  {
    PutIsTrimThenAppend(s.log, s.config.queueSize, Sentinel);
    PutIsTrimThenAppend(s.log.(published := s.log.published + [line]), s.config.queueSize, Event(line));
  }

  function Count(fates: seq<Fate>, fate: Fate): nat {
    if |fates| == 0 then 0
    else Count(fates[..|fates| - 1], fate) + (if fates[|fates| - 1] == fate then 1 else 0)
  }

  lemma {:induction false} FatesAreDeliveredOrDropped(lines: seq<Line>, fates: seq<Fate>)
    requires |lines| == |fates|
    ensures |Select(lines, fates)| == Count(fates, Delivered)
    ensures |fates| == Count(fates, Delivered) + Count(fates, Dropped)
  {
    if |fates| == 0 {
    } else {
      FatesAreDeliveredOrDropped(lines[..|lines| - 1], fates[..|fates| - 1]);
    }
  }

  function EventLines(items: seq<QueueItem>): seq<Line> {
    if |items| == 0 then []
    else EventLines(items[..|items| - 1]) + (if items[|items| - 1].Event? then [items[|items| - 1].line] else [])
  }

  lemma {:induction false} EventLinesOfEvents(lines: seq<Line>, n: nat)
    ensures EventLines(AsEvents(lines) + Sentinels(n)) == lines
    decreases |lines| + n
  {
    var items := AsEvents(lines) + Sentinels(n);
    if n > 0 {
      EventLinesOfEvents(lines, n - 1);
      assert items[..|items| - 1] == AsEvents(lines) + Sentinels(n - 1);
    } else if |lines| > 0 {
      EventLinesOfEvents(lines[..|lines| - 1], 0);
      assert items[..|items| - 1] == AsEvents(lines[..|lines| - 1]) + Sentinels(0);
    }
  }

  /**
   Conservation: what the receive loop published is what pure sorting finds in the lines received;
   it splits into a gone part and the queued rest; of the gone part the waiters were handed exactly
   those not dropped, in order.
   */
  lemma {:induction false} EventsAreConserved(config: Config, now: real, actions: seq<Action>, s: State)
    requires s == Run(Initial(config, now), actions)
    ensures s.log.published == Sort(s.received).events
    ensures |s.log.fates| <= |s.log.published|
    ensures s.log.published == s.log.published[..|s.log.fates|] + EventLines(s.log.queue)
    ensures EventLines(s.log.handed) == Select(s.log.published[..|s.log.fates|], s.log.fates)
    ensures |s.log.published| ==
            |EventLines(s.log.handed)| + Count(s.log.fates, Dropped) + |EventLines(s.log.queue)|
  {
    RunIsSafe(config, now, actions);
    LogIsConserved(s.log, s.config.queueSize, s.closed);
  }

  lemma {:induction false} LogIsConserved(log: EventLog, size: int, closed: bool)
    requires QueueOk(log, size, closed)
    ensures EventLines(log.queue) == Rest(log)
    ensures EventLines(log.handed) == Select(log.published[..|log.fates|], log.fates)
    ensures |log.published| == |EventLines(log.handed)| + Count(log.fates, Dropped) + |EventLines(log.queue)|
  {
    QueuedAreRest(log, closed);
    HandedAreDelivered(log, closed);
    FatesAreDeliveredOrDropped(log.published[..|log.fates|], log.fates);
  }

  lemma {:induction false} QueuedAreRest(log: EventLog, closed: bool)
    requires |log.fates| <= |log.published|
    requires log.queue == AsEvents(Rest(log)) + (if closed then [Sentinel] else [])
    ensures EventLines(log.queue) == Rest(log)
  {
    EventLinesOfEvents(Rest(log), if closed then 1 else 0);
    assert Sentinels(1) == [Sentinel] && Sentinels(0) == [];
  }

  lemma {:induction false} HandedAreDelivered(log: EventLog, closed: bool)
    requires |log.fates| <= |log.published| && HandedOk(log, closed)
    ensures EventLines(log.handed) == Select(log.published[..|log.fates|], log.fates)
  {
    var delivered := Select(log.published[..|log.fates|], log.fates);
    EventLinesOfEvents(delivered, |log.handed| - |delivered|);
  }

  // ----- Flood retries -----

  /**
   A call writes its line at most `floodRetries + 1` times, however other callers write in between;
   every attempt before the last was answered with a flood error, and the next attempt came later
   than the server asked; a flood error surfaces only when all attempts were used up.
   */
  lemma {:induction false} FloodRetriesAreBounded(config: Config, now: real, actions: seq<Action>, s: State, c: nat)
    requires s == Run(Initial(config, now), actions) && c in s.calls && config.floodRetries >= 0
    ensures Writes(s.wire, c) == |s.calls[c].attempts| <= config.floodRetries + 1
    ensures forall k :: 0 <= k < |s.calls[c].attempts| - 1 ==> WaitedAfterFlood(s.calls[c].attempts, k)
    ensures s.calls[c].phase.Finished? && s.calls[c].phase.outcome.Flooded? ==>
              Writes(s.wire, c) == config.floodRetries + 1 && WasFlooded(LastAttempt(s.calls[c]))
  {
    RunIsSafe(config, now, actions);
    RunKeepsConfig(Initial(config, now), actions);
    assert CallOk(s.config, s.now, s.wire, c, s.calls[c]);
    assert RetriesOk(s.calls[c].attempts);
  }

  /** Attempt `k` was flooded, and attempt `k + 1` was written after the wait the server asked for. */
  predicate WaitedAfterFlood(attempts: seq<Attempt>, k: nat)
    requires k + 1 < |attempts|
  {
    && WasFlooded(attempts[k])
    && attempts[k + 1].writtenAt > attempts[k].answer.value.at + Flood.RetryAfter(attempts[k].answer.value.error)
  }

  /**
   The assertion behind the retry loop is reached exactly when the retry count is negative: the last
   flood is raised at the try whose number is the count, so no call ever sleeps past the range.
   */
  lemma {:induction false} LoopEndIsUnreachable(config: Config, now: real, actions: seq<Action>, s: State, c: nat)
    requires s == Run(Initial(config, now), actions) && c in s.calls
    ensures s.calls[c].phase == Finished(LoopEnded) <==> config.floodRetries < 0
  {
    RunIsSafe(config, now, actions);
    RunKeepsConfig(Initial(config, now), actions);
    assert CallOk(s.config, s.now, s.wire, c, s.calls[c]);
  }

  lemma {:induction false} RunKeepsConfig(s: State, actions: seq<Action>)
    ensures Run(s, actions).config == s.config
  {
    if |actions| == 0 {
    } else {
      var before, a := actions[..|actions| - 1], actions[|actions| - 1];
      RunKeepsConfig(s, before);
      var t := Run(s, before);
      if Enabled(t, a) {
        if a.Receive? {
          LineTouchesOnlyItsOwn(t.(received := t.received + [a.line]), a.line, KindOf(a.line), ParsedError(a.line));
        } else {
          OnlyReceivingReceives(t, a);
        }
      }
    }
  }

  lemma {:induction false} LineTouchesOnlyItsOwn(s: State, line: Line, kind: Kind,
                                                 parsed: Result<ErrorLine, ParseError>)
    ensures OnLine(s, line, kind, parsed).config == s.config
    ensures OnLine(s, line, kind, parsed).lastActivity == s.lastActivity
    ensures OnLine(s, line, kind, parsed).wire == s.wire
    ensures OnLine(s, line, kind, parsed).lock == s.lock && OnLine(s, line, kind, parsed).pending == s.pending
  {
  }

  /** The idle clock starts anew exactly when a send has returned or an answer is taken; lines received do not count. */
  lemma {:induction false} IdleClockRestarts(s: State, a: Action)
    requires Enabled(s, a)
    ensures Step(s, a).lastActivity ==
            if a.Exec? && (a.move == SendReturns(true) || (a.move.Resume? && s.calls[a.caller].phase.future.Resolved?))
            then s.now else s.lastActivity
  {
    if a.Receive? {
      LineTouchesOnlyItsOwn(s.(received := s.received + [a.line]), a.line, KindOf(a.line), ParsedError(a.line));
    }
  }

  /** A single call whose send fails, and then nothing but time. */
  function FailedSend(line: Line, time: real): seq<Action> {
    [Exec(0, Begin(line)), Exec(0, Acquire(true)), Exec(0, SendReturns(false)), Tick(time)]
  }

  /**
   A send that fails ends its call, closes the transport, and neither closes the connection nor restarts
   the idle clock: the connection stays open and idle, for any time, until the stream ends.
   */
  lemma {:induction false} FailedSendLeavesItOpen(config: Config, now: real, line: Line, time: real)
    requires config.floodRetries >= 0 && time >= 0.0
    ensures var s := Run(Initial(config, now), FailedSend(line, time));
            && !s.closed && s.receiving && s.transportClosed && s.now - s.lastActivity == time
            && 0 in s.calls && s.calls[0].phase == Finished(ConnectionClosed)
  {
    var s, a := Initial(config, now), FailedSend(line, time);
    RunNext(s, [], a[0]);
    RunNext(s, [a[0]], a[1]);
    RunNext(s, [a[0], a[1]], a[2]);
    RunNext(s, [a[0], a[1], a[2]], a[3]);
    assert [] + [a[0]] == [a[0]] && [a[0]] + [a[1]] == [a[0], a[1]];
    assert [a[0], a[1]] + [a[2]] == [a[0], a[1], a[2]] && [a[0], a[1], a[2]] + [a[3]] == a;
    var s1 := Run(s, [a[0]]);
    assert s1 == s.(calls := map[0 := Call(line, Queued, [])]);
    assert Run(s, [a[0], a[1]]) == AcquireLock(s1, 0, true);
    assert Run(s, [a[0], a[1], a[2]]) == AfterSend(AcquireLock(s1, 0, true), 0, false);
  }

  // ----- Nobody waits for ever once the connection is closed -----

  /** How many steps of its own a lock holder can still take on a closed connection. */
  function Patience(phase: Phase): nat {
    match phase
    case Draining(_) => 3
    case Awaiting(_) => 2
    case Expired => 1
    case Closing => 1
    case _ => 0
  }

  /** The lock is free, or its holder `h` has patience left for no more than `budget` steps in all. */
  predicate IsLettingGo(s: State, h: nat, steps: nat, budget: nat) {
    || s.lock.None?
    || (s.lock == Some(h) && h in s.calls && steps + Patience(s.calls[h].phase) <= budget)
  }

  function OwnStep(s: State, h: nat, a: Action): nat {
    if a.Exec? && a.caller == h && Enabled(s, a) then 1 else 0
  }

  /** The steps that `h` takes in a run. */
  function OwnSteps(s: State, h: nat, actions: seq<Action>): nat {
    if |actions| == 0 then 0
    else
      var before, a := actions[..|actions| - 1], actions[|actions| - 1];
      OwnSteps(s, h, before) + OwnStep(Run(s, before), h, a)
  }

  /** Nobody gets the lock of a closed connection, and each step of its holder brings it nearer to letting go. */
  lemma {:induction false} ClosedHolderStep(s: State, h: nat, a: Action, steps: nat, budget: nat)
    requires LockOk(s.lock, s.pending, s.calls) && LifeOk(s.receiving, s.closed, s.calls) && s.closed
    requires IsLettingGo(s, h, steps, budget)
    ensures IsLettingGo(Next(s, a), h, steps + OwnStep(s, h, a), budget)
  {
  }

  lemma {:induction false} ClosedHolderRuns(s: State, h: nat, actions: seq<Action>)
    requires Safe(s) && s.closed && s.lock == Some(h)
    ensures IsLettingGo(Run(s, actions), h, OwnSteps(s, h, actions), Patience(s.calls[h].phase))
  {
    if |actions| == 0 {
    } else {
      var before, a := actions[..|actions| - 1], actions[|actions| - 1];
      ClosedHolderRuns(s, h, before);
      ClosedRunIsCalm(s, before);
      ClosedHolderStep(Run(s, before), h, a, OwnSteps(s, h, before), Patience(s.calls[h].phase));
    }
  }

  /**
   On a closed connection, whatever else happens, the lock is free once its holder has taken three
   steps of its own, and it stays free.
   */
  lemma {:induction false} ClosedHolderLetsGo(s: State, h: nat, actions: seq<Action>)
    requires Safe(s) && s.closed && s.lock == Some(h)
    ensures Run(s, actions).lock.None? || Run(s, actions).lock == Some(h)
    ensures OwnSteps(s, h, actions) >= 3 ==> Run(s, actions).lock.None?
  {
    ClosedHolderRuns(s, h, actions);
    ClosedRunIsCalm(s, actions);
  }

  /** Until then a step of its own is always possible. */
  lemma {:induction false} ClosedHolderCanMove(s: State, h: nat) returns (m: Move)
    requires LockOk(s.lock, s.pending, s.calls) && LifeOk(s.receiving, s.closed, s.calls)
    requires s.closed && s.lock == Some(h)
    ensures CanMove(s, h, m) && !m.Cancel?
  {
    assert Holds(s.calls[h].phase);
    match s.calls[h].phase {
      case Draining(_) => m := SendReturns(true);
      case Awaiting(_) => m := Resume;
      case Expired => m := CloseAfterTimeout(true);
      case Closing => m := FinishClosing;
    }
  }

  /** Two steps are not always enough: the send may return and the timeout fire before the failure is seen. */
  lemma {:induction false} TwoStepsMayNotDo(s: State, h: nat)
    requires LockOk(s.lock, s.pending, s.calls) && s.closed && s.lock == Some(h) && s.calls[h].phase.Draining?
    ensures OwnSteps(s, h, [Exec(h, SendReturns(true)), Exec(h, Expire)]) == 2
    ensures Run(s, [Exec(h, SendReturns(true)), Exec(h, Expire)]).lock == Some(h)
  {
    var first, both := [Exec(h, SendReturns(true))], [Exec(h, SendReturns(true)), Exec(h, Expire)];
    assert both[..1] == first && first[..0] == [];
    assert Run(s, first) == AfterSend(s, h, true);
    assert OwnSteps(s, h, first) == 1;
  }

  /** What can become of a call whose timeout has fired. */
  predicate IsTimingOut(phase: Phase) {
    phase.Expired? || phase.Closing? || phase == Finished(TimedOut) || phase == Finished(Cancelled)
  }

  lemma {:induction false} LineLeavesSettled(
      s: State, c: nat, line: Line, kind: Kind, parsed: Result<ErrorLine, ParseError>)
    requires c in s.calls && !IsUnresolved(s.calls[c].phase)
    ensures c in OnLine(s, line, kind, parsed).calls && OnLine(s, line, kind, parsed).calls[c] == s.calls[c]
  {
  }

  lemma {:induction false} OtherMoveLeavesSettled(s: State, c: nat, d: nat, m: Move)
    requires c in s.calls && !IsUnresolved(s.calls[c].phase) && d != c && CanMove(s, d, m)
    ensures c in MakeMove(s, d, m).calls && MakeMove(s, d, m).calls[c] == s.calls[c]
  {
  }

  /** A call that waits for no response is touched by its own steps only. */
  lemma {:induction false} OthersLeaveSettled(s: State, c: nat, a: Action)
    requires c in s.calls && !IsUnresolved(s.calls[c].phase)
    requires Enabled(s, a) && (a.Exec? ==> a.caller != c)
    ensures c in Step(s, a).calls && Step(s, a).calls[c] == s.calls[c]
  {
    if a.Exec? {
      OtherMoveLeavesSettled(s, c, a.caller, a.move);
    } else if a.Receive? {
      LineLeavesSettled(s.(received := s.received + [a.line]), c, a.line, KindOf(a.line), ParsedError(a.line));
    }
  }

  lemma {:induction false} TimingOutMove(s: State, c: nat, m: Move)
    requires c in s.calls && IsTimingOut(s.calls[c].phase) && CanMove(s, c, m)
    ensures c in MakeMove(s, c, m).calls && IsTimingOut(MakeMove(s, c, m).calls[c].phase)
    ensures MakeMove(s, c, m).calls[c].phase == Finished(Cancelled) ==> m.Cancel?
  {
  }

  lemma {:induction false} TimingOutStep(s: State, c: nat, a: Action)
    requires c in s.calls && IsTimingOut(s.calls[c].phase)
    ensures c in Next(s, a).calls && IsTimingOut(Next(s, a).calls[c].phase)
    ensures Next(s, a).calls[c].phase == Finished(Cancelled) ==>
              a == Exec(c, Cancel) || s.calls[c].phase == Finished(Cancelled)
  {
    if !Enabled(s, a) {
    } else if a.Exec? && a.caller == c {
      TimingOutMove(s, c, a.move);
    } else {
      OthersLeaveSettled(s, c, a);
    }
  }

  /** A call whose timeout has fired times out, in every continuation, unless it is cancelled. */
  lemma {:induction false} TimeoutIsFinal(s: State, c: nat, actions: seq<Action>)
    requires c in s.calls && (s.calls[c].phase.Expired? || s.calls[c].phase.Closing?)
    ensures c in Run(s, actions).calls && IsTimingOut(Run(s, actions).calls[c].phase)
    ensures Run(s, actions).calls[c].phase == Finished(Cancelled) ==> Exec(c, Cancel) in actions
  {
    if |actions| == 0 {
    } else {
      var before, a := actions[..|actions| - 1], actions[|actions| - 1];
      TimeoutIsFinal(s, c, before);
      TimingOutStep(Run(s, before), c, a);
      assert actions == before + [a];
    }
  }

  /** What can become of a call whose future has failed. */
  predicate IsFailing(phase: Phase) {
    phase == Draining(Failed) || phase == Awaiting(Failed) || phase == Finished(ConnectionClosed) || IsTimingOut(phase)
  }

  lemma {:induction false} FailingMove(s: State, c: nat, m: Move)
    requires c in s.calls && IsFailing(s.calls[c].phase) && !IsTimingOut(s.calls[c].phase) && CanMove(s, c, m)
    ensures c in MakeMove(s, c, m).calls && IsFailing(MakeMove(s, c, m).calls[c].phase)
    ensures IsTimingOut(MakeMove(s, c, m).calls[c].phase) ==> m.Cancel? || m.Expire?
  {
  }

  lemma {:induction false} FailingStep(s: State, c: nat, a: Action)
    requires c in s.calls && IsFailing(s.calls[c].phase)
    ensures c in Next(s, a).calls && IsFailing(Next(s, a).calls[c].phase)
    ensures IsTimingOut(Next(s, a).calls[c].phase) ==>
              a == Exec(c, Cancel) || a == Exec(c, Expire) || IsTimingOut(s.calls[c].phase)
  {
    if IsTimingOut(s.calls[c].phase) {
      TimingOutStep(s, c, a);
    } else if !Enabled(s, a) {
    } else if a.Exec? && a.caller == c {
      FailingMove(s, c, a.move);
    } else {
      OthersLeaveSettled(s, c, a);
    }
  }

  /** A failing call that is timing out or cancelled has the action for it in its history. */
  predicate FailsAsRecorded(t: State, c: nat, history: seq<Action>) {
    && c in t.calls && IsFailing(t.calls[c].phase)
    && (IsTimingOut(t.calls[c].phase) ==> Exec(c, Cancel) in history || Exec(c, Expire) in history)
  }

  lemma {:induction false} FailingIsRecorded(t: State, c: nat, history: seq<Action>, a: Action)
    requires FailsAsRecorded(t, c, history)
    ensures FailsAsRecorded(Next(t, a), c, history + [a])
  {
    FailingStep(t, c, a);
  }

  lemma {:induction false} FailingRunIsRecorded(s: State, c: nat, actions: seq<Action>)
    requires FailsAsRecorded(s, c, [])
    ensures FailsAsRecorded(Run(s, actions), c, actions)
  {
    if |actions| == 0 {
      assert actions == [];
    } else {
      var before, a := actions[..|actions| - 1], actions[|actions| - 1];
      FailingRunIsRecorded(s, c, before);
      FailingIsRecorded(Run(s, before), c, before, a);
      assert actions == before + [a];
    }
  }

  /** A call whose future has failed gets the closed error, unless it is cancelled or its timeout fires first. */
  lemma {:induction false} FailureIsFinal(s: State, c: nat, actions: seq<Action>)
    requires c in s.calls && (s.calls[c].phase == Draining(Failed) || s.calls[c].phase == Awaiting(Failed))
    ensures c in Run(s, actions).calls
    ensures var phase := Run(s, actions).calls[c].phase;
            || phase == Draining(Failed) || phase == Awaiting(Failed) || phase == Finished(ConnectionClosed)
            || (IsTimingOut(phase) && (Exec(c, Cancel) in actions || Exec(c, Expire) in actions))
  {
    FailingRunIsRecorded(s, c, actions);
  }

  predicate Waits(phase: Phase) {
    phase.Queued? || phase.Sleeping?
  }

  /** What can become of a waiting call once the connection is closed: only its phase changes, and only so far. */
  predicate WaitsOrIsTold(waiting: Call, now: Call) {
    && now == waiting.(phase := now.phase)
    && (Waits(now.phase) || now.phase == Finished(ConnectionClosed) || now.phase == Finished(Cancelled))
  }

  lemma {:induction false} WaitingCallMoves(s: State, c: nat, m: Move)
    requires s.closed && c in s.calls && CanMove(s, c, m)
    requires Waits(s.calls[c].phase)
    requires s.calls[c].phase.Sleeping? ==> LoopHead(s.config, |s.calls[c].attempts|) == Queued
    ensures var t := MakeMove(s, c, m);
            && c in t.calls && WaitsOrIsTold(s.calls[c], t.calls[c])
            && (t.calls[c].phase == Finished(Cancelled) ==> m.Cancel?)
  {
  }

  lemma {:induction false} WaitingCallStep(s: State, c: nat, a: Action, waiting: Call)
    requires LifeOk(s.receiving, s.closed, s.calls) && CallsOk(s.config, s.now, s.wire, s.calls)
    requires s.closed && c in s.calls && WaitsOrIsTold(waiting, s.calls[c])
    ensures c in Next(s, a).calls && WaitsOrIsTold(waiting, Next(s, a).calls[c])
    ensures Next(s, a).calls[c].phase == Finished(Cancelled) ==>
              a == Exec(c, Cancel) || s.calls[c].phase == Finished(Cancelled)
  {
    if !Enabled(s, a) {
    } else if a.Exec? && a.caller == c {
      if s.calls[c].phase.Sleeping? {
        assert CallOk(s.config, s.now, s.wire, c, s.calls[c]);
      }
      WaitingCallMoves(s, c, a.move);
    } else {
      OthersLeaveSettled(s, c, a);
    }
  }

  /**
   A caller that is queued on the lock or asleep between retries when the connection closes: in every
   continuation it writes nothing more, it leaves its waiting only for the closed error unless it is
   cancelled, and its next turn at the lock gives it that error.
   */
  lemma {:induction false} WaitingCallerIsTold(s: State, c: nat, actions: seq<Action>)
    requires Safe(s) && s.closed && c in s.calls && Waits(s.calls[c].phase)
    ensures var t := Run(s, actions);
            && t.wire == s.wire && c in t.calls && WaitsOrIsTold(s.calls[c], t.calls[c])
            && (Exec(c, Cancel) !in actions ==> t.calls[c].phase != Finished(Cancelled))
    ensures forall w :: CanMove(Run(s, actions), c, Acquire(w)) ==>
              var u := Next(Run(s, actions), Exec(c, Acquire(w)));
              c in u.calls && u.calls[c].phase == Finished(ConnectionClosed) && u.wire == s.wire
  {
    ClosedRunIsCalm(s, actions);
    WaitingCallInRun(s, c, actions);
    NextTurnTells(s, c, Run(s, actions));
  }

  lemma {:induction false} ClosedRunIsCalm(s: State, actions: seq<Action>)
    requires Safe(s) && s.closed
    ensures var t := Run(s, actions);
            && t.closed && t.wire == s.wire
            && LockOk(t.lock, t.pending, t.calls)
            && LifeOk(t.receiving, t.closed, t.calls) && CallsOk(t.config, t.now, t.wire, t.calls)
  {
    ClosedForGood(s, actions);
    RunKeepsSafe(s, actions);
  }

  lemma {:induction false} WaitingCallInRun(s: State, c: nat, actions: seq<Action>)
    requires Safe(s) && s.closed && c in s.calls && Waits(s.calls[c].phase)
    ensures c in Run(s, actions).calls && WaitsOrIsTold(s.calls[c], Run(s, actions).calls[c])
    ensures Run(s, actions).calls[c].phase == Finished(Cancelled) ==> Exec(c, Cancel) in actions
  {
    if |actions| == 0 {
    } else {
      var before, a := actions[..|actions| - 1], actions[|actions| - 1];
      var t := Run(s, before);
      WaitingCallInRun(s, c, before);
      ClosedRunIsCalm(s, before);
      WaitingCallStep(t, c, a, s.calls[c]);
      assert Run(s, actions) == Next(t, a);
    }
  }

  lemma {:induction false} NextTurnTells(s: State, c: nat, t: State)
    requires t.closed && t.wire == s.wire
    ensures forall w :: CanMove(t, c, Acquire(w)) ==>
              var u := Next(t, Exec(c, Acquire(w)));
              c in u.calls && u.calls[c].phase == Finished(ConnectionClosed) && u.wire == s.wire
  {
  }
}

/** What every run of the session keeps, whatever the interleaving and whatever the server does. */
module SessionSafety {
  import opened Sequences
  import opened Protocol
  import opened Demux
  import opened Session
  import Flood

  // ----- The invariant -----

  /** Commands first, then at most one `quit`, which only a closed connection has written. */
  ghost predicate WireOk(wire: seq<Sent>, closed: bool) {
    forall i :: 0 <= i < |wire| && wire[i].Quit? ==> i == |wire| - 1 && closed
  }

  /** The pending slot is the lock holder's, and exactly the holder is between write and release. */
  ghost predicate LockOk(lock: Option<nat>, pending: Option<nat>, calls: Calls) {
    && pending == lock
    && (lock.Some? ==> lock.value in calls)
    && (forall c :: c in calls ==> (Holds(calls[c].phase) <==> lock == Some(c)))
  }

  /** The receive loop lives exactly as long as the connection, and closing leaves no future open. */
  ghost predicate LifeOk(receiving: bool, closed: bool, calls: Calls) {
    && (receiving <==> !closed)
    && (closed ==> forall c :: c in calls ==> !IsUnresolved(calls[c].phase))
  }

  /** The buffer and the published events are those of the pure sorting of the lines received. */
  ghost predicate SortOk(received: seq<Line>, dataBuffer: seq<Line>, published: seq<Line>) {
    && dataBuffer == Sort(received).partial
    && published == Sort(received).events
  }

  function AsEvents(lines: seq<Line>): (r: seq<QueueItem>)
    ensures |r| == |lines|
    ensures forall i :: 0 <= i < |lines| ==> r[i] == Event(lines[i])
  {
    seq(|lines|, i requires 0 <= i < |lines| => Event(lines[i]))
  }

  function Sentinels(n: nat): (r: seq<QueueItem>)
    ensures |r| == n
  {
    seq(n, _ => Sentinel)
  }

  /** The lines that were delivered, in order. */
  function Select(lines: seq<Line>, fates: seq<Fate>): (r: seq<Line>)
    requires |lines| == |fates|
    ensures |r| <= |lines|
  {
    var n := |lines|;
    if n == 0 then []
    else Select(lines[..n - 1], fates[..n - 1]) + (if fates[n - 1].Delivered? then [lines[n - 1]] else [])
  }

  /**
   Every published event is delivered, dropped or queued: the queue is the rest of the published
   events, with one sentinel behind them once the connection is closed, and the waiters were given
   the delivered events in order and then only the news of the closing.
   */
  ghost predicate QueueOk(log: EventLog, size: int, closed: bool) {
    && |log.fates| <= |log.published|
    && log.queue == AsEvents(log.published[|log.fates|..]) + (if closed then [Sentinel] else [])
    && (size > 0 ==> |log.queue| <= size)
    && HandedOk(log, closed)
  }

  ghost predicate HandedOk(log: EventLog, closed: bool)
    requires |log.fates| <= |log.published|
  {
    var delivered := Select(log.published[..|log.fates|], log.fates);
    && |delivered| <= |log.handed|
    && log.handed == AsEvents(delivered) + Sentinels(|log.handed| - |delivered|)
    && (|delivered| < |log.handed| ==> closed && |log.fates| == |log.published|)
  }

  predicate WasFlooded(a: Attempt) {
    a.answer.Some? && a.answer.value.error.id == Flood.FLOOD_ERROR_ID
  }

  /** When the call may write again. */
  function RetryTime(a: Attempt): real
    requires a.answer.Some?
  {
    a.answer.value.at + Flood.RetryAfter(a.answer.value.error) + 0.1
  }

  /** Every attempt but the last was answered with a flood error, and the next waited longer than its hint. */
  ghost predicate RetriesOk(attempts: seq<Attempt>) {
    forall k :: 0 <= k < |attempts| - 1 ==>
      && WasFlooded(attempts[k])
      && attempts[k].slot < attempts[k + 1].slot
      && RetryTime(attempts[k]) <= attempts[k + 1].writtenAt
  }

  function LastAttempt(call: Call): Attempt
    requires |call.attempts| > 0
  {
    call.attempts[|call.attempts| - 1]
  }

  predicate IsLastAnswer(call: Call, error: ErrorLine) {
    |call.attempts| > 0 && LastAttempt(call).answer.Some? && LastAttempt(call).answer.value.error == error
  }

  predicate OutcomeOk(config: Config, call: Call, outcome: Outcome) {
    match outcome
    case Rows(records) =>
      |call.attempts| > 0 && LastAttempt(call).answer.Some? && LastAttempt(call).answer.value.error.Good() &&
      records == BlockRecords(LastAttempt(call).answer.value.data)
    case QueryFailed(error) => IsLastAnswer(call, error) && !error.Good() && error.id != Flood.FLOOD_ERROR_ID
    case Flooded(error) =>
      IsLastAnswer(call, error) && WasFlooded(LastAttempt(call)) && |call.attempts| == config.floodRetries + 1
    case LoopEnded => config.floodRetries < 0
    case _ => true
  }

  predicate PhaseOk(config: Config, now: real, call: Call) {
    match call.phase
    case Queued =>
      |call.attempts| > 0 ==>
        WasFlooded(LastAttempt(call)) && |call.attempts| <= config.floodRetries && RetryTime(LastAttempt(call)) <= now
    case Sleeping(until) =>
      |call.attempts| > 0 && WasFlooded(LastAttempt(call)) && |call.attempts| <= config.floodRetries &&
      until == RetryTime(LastAttempt(call))
    case Finished(outcome) => OutcomeOk(config, call, outcome)
    case _ => |call.attempts| > 0 && LastAttempt(call).answer.None?
  }

  /** The attempts of a call are its own line on the wire, in order and not too many. */
  ghost predicate AttemptsOk(config: Config, now: real, wire: seq<Sent>, c: nat, call: Call) {
    && (config.floodRetries < 0 ==> call.phase == Finished(LoopEnded))
    && (call.phase != Finished(LoopEnded) ==> |call.attempts| <= config.floodRetries + 1)
    && (call.phase == Finished(LoopEnded) ==> call.attempts == [])
    && (forall k :: 0 <= k < |call.attempts| ==>
          && call.attempts[k].slot < |wire|
          && wire[call.attempts[k].slot] == Issued(c, call.line)
          && call.attempts[k].writtenAt <= now)
  }

  /** How often a caller has written. */
  function Writes(wire: seq<Sent>, c: nat): nat {
    if |wire| == 0 then 0
    else Writes(wire[..|wire| - 1], c) + (if wire[|wire| - 1].Issued? && wire[|wire| - 1].caller == c then 1 else 0)
  }

  ghost predicate CallOk(config: Config, now: real, wire: seq<Sent>, c: nat, call: Call) {
    && AttemptsOk(config, now, wire, c, call)
    && RetriesOk(call.attempts)
    && PhaseOk(config, now, call)
    && Writes(wire, c) == |call.attempts|
  }

  ghost predicate CallsOk(config: Config, now: real, wire: seq<Sent>, calls: Calls) {
    && (forall c :: c in calls ==> CallOk(config, now, wire, c, calls[c]))
    && (forall c :: c !in calls ==> Writes(wire, c) == 0)
  }

  /** Everything but the calls' own histories. */
  ghost predicate FrameOk(s: State) {
    && WireOk(s.wire, s.closed)
    && LockOk(s.lock, s.pending, s.calls)
    && LifeOk(s.receiving, s.closed, s.calls)
    && SortOk(s.received, s.dataBuffer, s.log.published)
    && QueueOk(s.log, s.config.queueSize, s.closed)
  }

  ghost predicate Safe(s: State) {
    FrameOk(s) && CallsOk(s.config, s.now, s.wire, s.calls)
  }

  lemma {:induction false} RunNext(s: State, actions: seq<Action>, a: Action)
    ensures Run(s, actions + [a]) == Next(Run(s, actions), a)
  {
    assert (actions + [a])[..|actions|] == actions;
  }

  // ----- The event queue -----

  lemma {:induction false} WithRoomDropsAtMostOne(queue: seq<QueueItem>, size: int)
    requires size > 0 ==> |queue| <= size
    ensures WithRoom(queue, size) == if IsFull(queue, size) then queue[1..] else queue
  {
  }

  lemma {:induction false} AsEventsFrom(lines: seq<Line>, n: nat)
    requires n < |lines|
    ensures AsEvents(lines[n..]) == [Event(lines[n])] + AsEvents(lines[n + 1..])
  {
  }

  lemma {:induction false} SelectNext(lines: seq<Line>, fates: seq<Fate>, fate: Fate)
    requires |fates| < |lines|
    ensures Select(lines[..|fates| + 1], fates + [fate]) ==
            Select(lines[..|fates|], fates) + (if fate.Delivered? then [lines[|fates|]] else [])
  {
    var n := |fates|;
    var some, all := lines[..n + 1], fates + [fate];
    assert some[..n] == lines[..n] && all[..n] == fates;
    assert some[n] == lines[n] && all[n] == fate && |some| == n + 1;
  }

  /** One more published event at the end. */
  lemma {:induction false} QueueGrows(log: EventLog, size: int, line: Line)
    requires QueueOk(log, size, false)
    requires size > 0 ==> |log.queue| < size
    ensures QueueOk(log.(published := log.published + [line], queue := log.queue + [Event(line)]), size, false)
  {
    var published := log.published + [line];
    assert published[..|log.fates|] == log.published[..|log.fates|];
    assert published[|log.fates|..] == log.published[|log.fates|..] + [line];
    assert AsEvents(published[|log.fates|..]) == AsEvents(log.published[|log.fates|..]) + [Event(line)];
  }

  /** The oldest event goes without being delivered. */
  lemma {:induction false} QueueDrops(log: EventLog, size: int)
    requires QueueOk(log, size, false) && |log.queue| > 0
    ensures QueueOk(log.(queue := log.queue[1..], fates := log.fates + [Dropped]), size, false)
  {
    SelectNext(log.published, log.fates, Dropped);
    AsEventsFrom(log.published, |log.fates|);
  }

  lemma {:induction false} QueueCloses(log: EventLog, size: int)
    requires QueueOk(log, size, false)
    requires size > 0 ==> |log.queue| < size
    ensures QueueOk(log.(queue := log.queue + [Sentinel]), size, true)
  {
  }

  function Trim(log: EventLog, size: int): EventLog {
    if IsFull(log.queue, size) then log.(queue := log.queue[1..], fates := log.fates + [Dropped]) else log
  }

  lemma {:induction false} PutIsTrimThenAppend(log: EventLog, size: int, item: QueueItem)
    requires size > 0 ==> |log.queue| <= size
    ensures Put(log, size, item) == Trim(log, size).(queue := Trim(log, size).queue + [item])
    ensures size > 0 ==> |Trim(log, size).queue| < size
  {
    WithRoomDropsAtMostOne(log.queue, size);
    assert Drops(1) == [Dropped] && Drops(0) == [];
    assert log.fates + [] == log.fates;
  }

  lemma {:induction false} QueueKeptByPublish(log: EventLog, size: int, line: Line)
    requires QueueOk(log, size, false)
    ensures QueueOk(Publish(log, size, line), size, false)
  {
    PutIsTrimThenAppend(log.(published := log.published + [line]), size, Event(line));
    if IsFull(log.queue, size) {
      QueueDrops(log, size);
    }
    QueueGrows(Trim(log, size), size, line);
  }

  lemma {:induction false} QueueKeptBySentinel(log: EventLog, size: int)
    requires QueueOk(log, size, false)
    ensures QueueOk(Put(log, size, Sentinel), size, true)
  {
    PutIsTrimThenAppend(log, size, Sentinel);
    if IsFull(log.queue, size) {
      QueueDrops(log, size);
    }
    QueueCloses(Trim(log, size), size);
  }

  lemma {:induction false} QueueKeptByTake(log: EventLog, size: int, closed: bool)
    requires QueueOk(log, size, closed) && |log.queue| > 0
    ensures QueueOk(Take(log), size, closed)
  {
    if |log.fates| < |log.published| {
      QueueKeptByTakingEvent(log, size, closed);
    } else {
      QueueKeptByTakingSentinel(log, size, closed);
    }
  }

  lemma {:induction false} QueueKeptByTakingEvent(log: EventLog, size: int, closed: bool)
    requires QueueOk(log, size, closed) && |log.fates| < |log.published|
    ensures QueueOk(Take(log), size, closed)
  {
    var n := |log.fates|;
    var delivered, line := Select(log.published[..n], log.fates), log.published[n];
    AsEventsFrom(log.published, n);
    assert Take(log).queue == AsEvents(log.published[n + 1..]) + (if closed then [Sentinel] else []);
    SelectNext(log.published, log.fates, Delivered);
    assert log.handed == AsEvents(delivered);
    assert AsEvents(delivered + [line]) == AsEvents(delivered) + [Event(line)];
  }

  lemma {:induction false} QueueKeptByTakingSentinel(log: EventLog, size: int, closed: bool)
    requires QueueOk(log, size, closed) && |log.queue| > 0 && |log.fates| == |log.published|
    ensures Take(log) == log.(handed := log.handed + [Sentinel])
    ensures QueueOk(Take(log), size, closed)
  {
  }

  // ----- The calls -----

  lemma {:induction false} WritesNext(wire: seq<Sent>, x: Sent, c: nat)
    ensures Writes(wire + [x], c) == Writes(wire, c) + (if x.Issued? && x.caller == c then 1 else 0)
  {
  }

  /** A call does not mind time passing or others writing. */
  lemma {:induction false} CallOkLater(config: Config, now: real, wire: seq<Sent>, c: nat, call: Call, later: real,
                                       longer: seq<Sent>)
    requires CallOk(config, now, wire, c, call)
    requires now <= later && wire <= longer && Writes(longer, c) == Writes(wire, c)
    ensures CallOk(config, later, longer, c, call)
  {
  }

  /** All calls but `c` wait while `c` takes a step. */
  lemma {:induction false} CallsChange(config: Config, now: real, wire: seq<Sent>, calls: Calls,
                    later: real, longer: seq<Sent>, c: nat, call: Call)
    requires CallsOk(config, now, wire, calls)
    requires now <= later && wire <= longer
    requires forall d: nat :: d != c ==> Writes(longer, d) == Writes(wire, d)
    requires CallOk(config, later, longer, c, call)
    ensures CallsOk(config, later, longer, calls[c := call])
  {
    forall d | d in calls && d != c ensures CallOk(config, later, longer, d, calls[d]) {
      CallOkLater(config, now, wire, d, calls[d], later, longer);
    }
  }

  /** Only the phase changes, and only within what the attempts allow. */
  lemma {:induction false} PhaseChange(s: State, c: nat, phase: Phase)
    requires CallsOk(s.config, s.now, s.wire, s.calls) && c in s.calls
    requires s.calls[c].phase != Finished(LoopEnded) && phase != Finished(LoopEnded)
    requires PhaseOk(s.config, s.now, s.calls[c].(phase := phase))
    ensures CallsOk(s.config, s.now, s.wire, SetPhase(s.calls, c, phase))
  {
    CallsChange(s.config, s.now, s.wire, s.calls, s.now, s.wire, c, s.calls[c].(phase := phase));
  }

  lemma {:induction false} CallsKeptBySettle(s: State, future: Future)
    requires CallsOk(s.config, s.now, s.wire, s.calls)
    ensures CallsOk(s.config, s.now, s.wire, Settle(s.calls, s.pending, future))
  {
    if s.pending.Some? && s.pending.value in s.calls && IsUnresolved(s.calls[s.pending.value].phase) {
      var c := s.pending.value;
      PhaseChange(s, c, if s.calls[c].phase.Draining? then Draining(future) else Awaiting(future));
    }
  }

  lemma {:induction false} CallsKeptByQuit(s: State)
    requires CallsOk(s.config, s.now, s.wire, s.calls)
    ensures CallsOk(s.config, s.now, s.wire + [Quit], s.calls)
  {
    forall d: nat ensures Writes(s.wire + [Quit], d) == Writes(s.wire, d) {
      WritesNext(s.wire, Quit, d);
    }
    forall d | d in s.calls ensures CallOk(s.config, s.now, s.wire + [Quit], d, s.calls[d]) {
      CallOkLater(s.config, s.now, s.wire, d, s.calls[d], s.now, s.wire + [Quit]);
    }
  }

  lemma {:induction false} CallsKeptByCloseBlock(s: State, quitOk: bool)
    requires CallsOk(s.config, s.now, s.wire, s.calls)
    ensures CallsOk(s.config, s.now, CloseBlock(s, quitOk).wire, CloseBlock(s, quitOk).calls)
  {
    if !s.closed {
      CallsKeptBySettle(s, Failed);
      CallsKeptByQuit(s.(calls := Settle(s.calls, s.pending, Failed)));
    }
  }

  lemma {:induction false} CallsKeptByFinish(s: State, c: nat, outcome: Outcome)
    requires CallsOk(s.config, s.now, s.wire, s.calls) && c in s.calls && !s.calls[c].phase.Finished?
    requires outcome in {ConnectionClosed, TimedOut, Cancelled}
    ensures CallsOk(s.config, s.now, s.wire, Finish(s, c, outcome).calls)
  {
    PhaseChange(s, c, Finished(outcome));
  }

  lemma {:induction false} CallsKeptByBegin(s: State, c: nat, line: Line)
    requires CallsOk(s.config, s.now, s.wire, s.calls) && c !in s.calls
    ensures CallsOk(s.config, s.now, s.wire, MakeMove(s, c, Begin(line)).calls)
  {
  }

  lemma {:induction false} CallsKeptByWrite(s: State, c: nat)
    requires CallsOk(s.config, s.now, s.wire, s.calls) && c in s.calls && s.calls[c].phase.Queued?
    requires !s.closed && !s.transportClosed
    ensures CallsOk(s.config, s.now, AcquireLock(s, c, true).wire, AcquireLock(s, c, true).calls)
  {
    var call := s.calls[c];
    var written := Call(call.line, Draining(Unresolved), call.attempts + [Attempt(|s.wire|, s.now, None)]);
    var longer := s.wire + [Issued(c, call.line)];
    forall d: nat ensures Writes(longer, d) == Writes(s.wire, d) + (if d == c then 1 else 0) {
      WritesNext(s.wire, Issued(c, call.line), d);
    }
    WrittenCallOk(s.config, s.now, s.wire, c, call, longer, written);
    CallsChange(s.config, s.now, s.wire, s.calls, s.now, longer, c, written);
  }

  lemma {:induction false} RetriesGrow(attempts: seq<Attempt>, next: Attempt)
    requires RetriesOk(attempts)
    requires |attempts| > 0 ==>
               var last := attempts[|attempts| - 1];
               WasFlooded(last) && last.slot < next.slot && RetryTime(last) <= next.writtenAt
    ensures RetriesOk(attempts + [next])
  {
    var longer := attempts + [next];
    forall k | 0 <= k < |longer| - 1
      ensures WasFlooded(longer[k]) && longer[k].slot < longer[k + 1].slot
              && RetryTime(longer[k]) <= longer[k + 1].writtenAt
    {
      if k < |attempts| - 1 {
        assert longer[k] == attempts[k] && longer[k + 1] == attempts[k + 1];
      }
    }
  }

  lemma {:induction false} AttemptsGrow(config: Config, now: real, wire: seq<Sent>, c: nat, call: Call,
                                        longer: seq<Sent>, written: Call)
    requires AttemptsOk(config, now, wire, c, call) && call.phase != Finished(LoopEnded)
    requires |call.attempts| <= config.floodRetries
    requires longer == wire + [Issued(c, call.line)]
    requires written == Call(call.line, Draining(Unresolved), call.attempts + [Attempt(|wire|, now, None)])
    ensures AttemptsOk(config, now, longer, c, written)
  {
  }

  lemma {:induction false} WrittenCallOk(config: Config, now: real, wire: seq<Sent>, c: nat, call: Call,
                                         longer: seq<Sent>, written: Call)
    requires CallOk(config, now, wire, c, call) && call.phase.Queued?
    requires longer == wire + [Issued(c, call.line)] && Writes(longer, c) == Writes(wire, c) + 1
    requires written == Call(call.line, Draining(Unresolved), call.attempts + [Attempt(|wire|, now, None)])
    ensures CallOk(config, now, longer, c, written)
  {
    AttemptsGrow(config, now, wire, c, call, longer, written);
    RetriesGrow(call.attempts, Attempt(|wire|, now, None));
  }

  lemma {:induction false} CallsKeptByResult(s: State, c: nat)
    requires CallsOk(s.config, s.now, s.wire, s.calls) && c in s.calls
    requires s.calls[c].phase.Awaiting? && s.calls[c].phase.future.Resolved?
    ensures CallsOk(s.config, s.now, s.wire, TakeResult(s, c).calls)
  {
    var call := s.calls[c];
    var answer := Answer(call.phase.future.data, call.phase.future.error, s.now);
    AnsweredCallOk(s.config, s.now, s.wire, c, call, answer);
    CallsChange(s.config, s.now, s.wire, s.calls, s.now, s.wire, c, TakeResult(s, c).calls[c]);
  }

  lemma {:induction false} AnsweredCallOk(config: Config, now: real, wire: seq<Sent>, c: nat, call: Call,
                                          answer: Answer)
    requires CallOk(config, now, wire, c, call) && call.phase.Awaiting? && answer.at == now
    ensures CallOk(config, now, wire, c,
                   Call(call.line, AfterAnswer(config, now, |call.attempts|, answer),
                        RecordAnswer(call.attempts, answer)))
  {
    var attempts := RecordAnswer(call.attempts, answer);
    var n := |attempts|;
    assert forall k :: 0 <= k < n ==> attempts[k].slot == call.attempts[k].slot
                                      && attempts[k].writtenAt == call.attempts[k].writtenAt;
    assert forall k :: 0 <= k < n - 1 ==> attempts[k] == call.attempts[k];
    assert RetriesOk(attempts);
  }

  lemma {:induction false} CallsKeptByAcquire(s: State, c: nat, writeOk: bool)
    requires CallsOk(s.config, s.now, s.wire, s.calls) && CanMove(s, c, Acquire(writeOk))
    ensures CallsOk(s.config, s.now, AcquireLock(s, c, writeOk).wire, AcquireLock(s, c, writeOk).calls)
  {
    if s.closed || s.transportClosed || !writeOk {
      CallsKeptByFinish(s, c, ConnectionClosed);
    } else {
      CallsKeptByWrite(s, c);
    }
  }

  lemma {:induction false} CallsKeptBySend(s: State, c: nat, drainOk: bool)
    requires CallsOk(s.config, s.now, s.wire, s.calls) && CanMove(s, c, SendReturns(drainOk))
    ensures CallsOk(s.config, s.now, s.wire, AfterSend(s, c, drainOk).calls)
  {
    CallsKeptByFinish(s, c, ConnectionClosed);
    PhaseChange(s, c, Awaiting(s.calls[c].phase.future));
  }

  lemma {:induction false} CallsKeptByTimeoutClose(s: State, c: nat, quitOk: bool)
    requires CallsOk(s.config, s.now, s.wire, s.calls) && CanMove(s, c, CloseAfterTimeout(quitOk))
    ensures CallsOk(s.config, s.now, MakeMove(s, c, CloseAfterTimeout(quitOk)).wire,
                    MakeMove(s, c, CloseAfterTimeout(quitOk)).calls)
  {
    if s.closed {
      CallsKeptByFinish(s, c, TimedOut);
    } else {
      PhaseChange(s, c, Closing);
      CallsKeptByCloseBlock(s.(calls := SetPhase(s.calls, c, Closing)), quitOk);
    }
  }

  lemma {:induction false} CallsKeptByResume(s: State, c: nat)
    requires CallsOk(s.config, s.now, s.wire, s.calls) && CanMove(s, c, Resume)
    ensures CallsOk(s.config, s.now, s.wire, MakeMove(s, c, Resume).calls) && MakeMove(s, c, Resume).wire == s.wire
  {
    if s.calls[c].phase.future.Failed? {
      CallsKeptByFinish(s, c, ConnectionClosed);
    } else {
      CallsKeptByResult(s, c);
    }
  }

  /** A call that sleeps has tries left, so waking never runs the loop out of its range. */
  lemma {:induction false} CallsKeptByWake(s: State, c: nat)
    requires CallsOk(s.config, s.now, s.wire, s.calls) && CanMove(s, c, Wake)
    ensures LoopHead(s.config, |s.calls[c].attempts|) == Queued
    ensures CallsOk(s.config, s.now, s.wire, MakeMove(s, c, Wake).calls)
  {
    assert CallOk(s.config, s.now, s.wire, c, s.calls[c]);
    PhaseChange(s, c, Queued);
  }

  lemma {:induction false} CallsKeptByMove(s: State, c: nat, m: Move)
    requires CallsOk(s.config, s.now, s.wire, s.calls) && CanMove(s, c, m)
    ensures CallsOk(s.config, s.now, MakeMove(s, c, m).wire, MakeMove(s, c, m).calls)
  {
    match m
    case Begin(line) => CallsKeptByBegin(s, c, line);
    case Acquire(writeOk) => CallsKeptByAcquire(s, c, writeOk);
    case SendReturns(drainOk) => CallsKeptBySend(s, c, drainOk);
    case Expire => PhaseChange(s, c, Expired);
    case CloseAfterTimeout(quitOk) => CallsKeptByTimeoutClose(s, c, quitOk);
    case FinishClosing => CallsKeptByFinish(s, c, TimedOut);
    case Resume => CallsKeptByResume(s, c);
    case Wake => CallsKeptByWake(s, c);
    case Cancel => CallsKeptByFinish(s, c, Cancelled);
  }

  lemma {:induction false} CallsKeptByTick(s: State, elapsed: real)
    requires CallsOk(s.config, s.now, s.wire, s.calls) && elapsed >= 0.0
    ensures CallsOk(s.config, s.now + elapsed, s.wire, s.calls)
  {
    forall d | d in s.calls ensures CallOk(s.config, s.now + elapsed, s.wire, d, s.calls[d]) {
      CallOkLater(s.config, s.now, s.wire, d, s.calls[d], s.now + elapsed, s.wire);
    }
  }

  // ----- The wire, the lock, the receive loop and the sorting -----

  lemma {:induction false} WireKept(s: State, a: Action)
    requires WireOk(s.wire, s.closed) && Enabled(s, a) && !a.Receive?
    ensures WireOk(Step(s, a).wire, Step(s, a).closed) && s.wire <= Step(s, a).wire
    ensures s.closed ==> Step(s, a).closed && Step(s, a).wire == s.wire
  {
  }

  /** The holder stays the holder, a bystander stays a bystander. */
  lemma {:induction false} LockKeptByPhase(s: State, c: nat, phase: Phase)
    requires LockOk(s.lock, s.pending, s.calls) && c in s.calls && (Holds(phase) <==> Holds(s.calls[c].phase))
    ensures LockOk(s.lock, s.pending, SetPhase(s.calls, c, phase))
  {
  }

  lemma {:induction false} LockKeptByFinish(s: State, c: nat, outcome: Outcome)
    requires LockOk(s.lock, s.pending, s.calls) && c in s.calls
    ensures LockOk(Finish(s, c, outcome).lock, Finish(s, c, outcome).pending, Finish(s, c, outcome).calls)
  {
  }

  lemma {:induction false} LockKeptByAcquire(s: State, c: nat, writeOk: bool)
    requires LockOk(s.lock, s.pending, s.calls) && CanMove(s, c, Acquire(writeOk))
    ensures LockOk(AcquireLock(s, c, writeOk).lock, AcquireLock(s, c, writeOk).pending,
                   AcquireLock(s, c, writeOk).calls)
  {
  }

  lemma {:induction false} LockKeptByResult(s: State, c: nat)
    requires LockOk(s.lock, s.pending, s.calls) && CanMove(s, c, Resume) && s.calls[c].phase.future.Resolved?
    ensures LockOk(TakeResult(s, c).lock, TakeResult(s, c).pending, TakeResult(s, c).calls)
  {
  }

  lemma {:induction false} LockKeptByCloseBlock(s: State, quitOk: bool)
    requires LockOk(s.lock, s.pending, s.calls)
    ensures LockOk(CloseBlock(s, quitOk).lock, CloseBlock(s, quitOk).pending, CloseBlock(s, quitOk).calls)
  {
  }

  lemma {:induction false} LockKeptByMove(s: State, c: nat, m: Move)
    requires LockOk(s.lock, s.pending, s.calls) && CanMove(s, c, m)
    ensures LockOk(MakeMove(s, c, m).lock, MakeMove(s, c, m).pending, MakeMove(s, c, m).calls)
  {
    match m
    case Begin(line) =>
    case Acquire(writeOk) => LockKeptByAcquire(s, c, writeOk);
    case SendReturns(drainOk) =>
      LockKeptByFinish(s, c, ConnectionClosed);
      LockKeptByPhase(s, c, Awaiting(s.calls[c].phase.future));
    case Expire => LockKeptByPhase(s, c, Expired);
    case CloseAfterTimeout(quitOk) =>
      LockKeptByFinish(s, c, TimedOut);
      LockKeptByPhase(s, c, Closing);
      LockKeptByCloseBlock(s.(calls := SetPhase(s.calls, c, Closing)), quitOk);
    case FinishClosing => LockKeptByFinish(s, c, TimedOut);
    case Resume =>
      if s.calls[c].phase.future.Failed? {
        LockKeptByFinish(s, c, ConnectionClosed);
      } else {
        LockKeptByResult(s, c);
      }
    case Wake => LockKeptByPhase(s, c, LoopHead(s.config, |s.calls[c].attempts|));
    case Cancel => LockKeptByFinish(s, c, Cancelled);
  }

  lemma {:induction false} LockKept(s: State, a: Action)
    requires LockOk(s.lock, s.pending, s.calls) && Enabled(s, a) && !a.Receive?
    ensures LockOk(Step(s, a).lock, Step(s, a).pending, Step(s, a).calls)
  {
    if a.Exec? {
      LockKeptByMove(s, a.caller, a.move);
    }
  }

  lemma {:induction false} LifeKeptByMove(s: State, c: nat, m: Move)
    requires LifeOk(s.receiving, s.closed, s.calls) && LockOk(s.lock, s.pending, s.calls)
    requires CanMove(s, c, m) && !m.CloseAfterTimeout?
    ensures LifeOk(MakeMove(s, c, m).receiving, MakeMove(s, c, m).closed, MakeMove(s, c, m).calls)
  {
  }

  lemma {:induction false} LifeKept(s: State, a: Action)
    requires LifeOk(s.receiving, s.closed, s.calls) && LockOk(s.lock, s.pending, s.calls)
    requires Enabled(s, a) && !a.Receive?
    ensures LifeOk(Step(s, a).receiving, Step(s, a).closed, Step(s, a).calls)
  {
    if a.Exec? && !a.move.CloseAfterTimeout? {
      LifeKeptByMove(s, a.caller, a.move);
    }
  }

  lemma {:induction false} MoveDoesNotReceive(s: State, c: nat, m: Move)
    requires CanMove(s, c, m)
    ensures MakeMove(s, c, m).received == s.received && MakeMove(s, c, m).dataBuffer == s.dataBuffer
    ensures MakeMove(s, c, m).log.published == s.log.published
  {
  }

  lemma {:induction false} MoveTakesNoTime(s: State, c: nat, m: Move)
    requires CanMove(s, c, m)
    ensures MakeMove(s, c, m).config == s.config && MakeMove(s, c, m).now == s.now
  {
  }

  /** Only the receive loop touches the buffer and publishes. */
  lemma {:induction false} OnlyReceivingReceives(s: State, a: Action)
    requires Enabled(s, a) && !a.Receive?
    ensures Step(s, a).received == s.received && Step(s, a).dataBuffer == s.dataBuffer
    ensures Step(s, a).log.published == s.log.published && Step(s, a).config == s.config
  {
    if a.Exec? {
      MoveDoesNotReceive(s, a.caller, a.move);
      MoveTakesNoTime(s, a.caller, a.move);
    }
  }

  lemma {:induction false} QueueKept(s: State, a: Action)
    requires QueueOk(s.log, s.config.queueSize, s.closed) && Enabled(s, a) && !a.Receive?
    requires s.receiving <==> !s.closed
    ensures QueueOk(Step(s, a).log, s.config.queueSize, Step(s, a).closed)
  {
    if a.TakeEvent? {
      QueueKeptByTake(s.log, s.config.queueSize, s.closed);
    } else if !s.closed {
      QueueKeptBySentinel(s.log, s.config.queueSize);
    }
  }

  lemma {:induction false} CallsKept(s: State, a: Action)
    requires CallsOk(s.config, s.now, s.wire, s.calls) && Enabled(s, a) && !a.Receive?
    ensures CallsOk(Step(s, a).config, Step(s, a).now, Step(s, a).wire, Step(s, a).calls)
  {
    match a
    case Exec(c, m) =>
      CallsKeptByMove(s, c, m);
      MoveTakesNoTime(s, c, m);
    case EndOfStream => CallsKeptBySettle(s, Failed);
    case Close(quitOk) => CallsKeptByCloseBlock(s, quitOk);
    case Tick(elapsed) => CallsKeptByTick(s, elapsed);
    case _ =>
  }

  lemma {:induction false} SettleKeeps(s: State, future: Future)
    requires Safe(s) && !s.closed
    ensures Safe(s.(calls := Settle(s.calls, s.pending, future)))
  {
    CallsKeptBySettle(s, future);
  }

  /** Settling moves no lock, and failing the holder's future leaves none open. */
  lemma {:induction false} LockKeptByFailing(lock: Option<nat>, pending: Option<nat>, calls: Calls)
    requires LockOk(lock, pending, calls)
    ensures LockOk(lock, pending, Settle(calls, pending, Failed))
    ensures LifeOk(false, true, Settle(calls, pending, Failed))
  {
  }

  lemma {:induction false} ShutdownKeeps(s: State, transport: bool)
    requires Safe(s) && !s.closed
    ensures Safe(Shutdown(s, transport))
  {
    LockKeptByFailing(s.lock, s.pending, s.calls);
    QueueKeptBySentinel(s.log, s.config.queueSize);
    CallsKeptBySettle(s, Failed);
  }

  lemma {:induction false} PublishKeeps(s: State, line: Line)
    requires Safe(s) && !s.closed && KindOf(line).Notification?
    ensures Safe(s.(received := s.received + [line], log := Publish(s.log, s.config.queueSize, line)))
  {
    SortNext(s.received, line);
    QueueKeptByPublish(s.log, s.config.queueSize, line);
  }

  lemma {:induction false} BufferKeeps(s: State, line: Line)
    requires Safe(s) && !KindOf(line).Notification?
    ensures Safe(s.(received := s.received + [line], dataBuffer := Sort(s.received + [line]).partial))
  {
  }

  /** Everything the receive loop does with one line. */
  lemma {:induction false} LineKeeps(s: State, line: Line, kind: Kind, parsed: Result<ErrorLine, ParseError>)
    requires Safe(s) && s.receiving && kind == KindOf(line)
    ensures Safe(OnLine(s.(received := s.received + [line]), line, kind, parsed))
  {
    if kind.Notification? {
      PublishKeeps(s, line);
    } else {
      SortNext(s.received, line);
      BufferKeeps(s, line);
      var t := s.(received := s.received + [line], dataBuffer := []);
      if kind.Terminator? {
        if parsed.Ok? {
          SettleKeeps(t, Resolved(s.dataBuffer, parsed.value));
        } else {
          ShutdownKeeps(t, false);
        }
      }
    }
  }

  lemma {:induction false} StepKeepsSafe(s: State, a: Action)
    requires Safe(s) && Enabled(s, a)
    ensures Safe(Step(s, a))
  {
    if a.Receive? {
      LineKeeps(s, a.line, KindOf(a.line), ParsedError(a.line));
    } else {
      WireKept(s, a);
      LockKept(s, a);
      LifeKept(s, a);
      OnlyReceivingReceives(s, a);
      QueueKept(s, a);
      CallsKept(s, a);
    }
  }

  /** The invariant holds in every state of every run. */
  lemma {:induction false} RunIsSafe(config: Config, now: real, actions: seq<Action>)
    ensures Safe(Run(Initial(config, now), actions))
  {
    if |actions| == 0 {
    } else {
      var before := actions[..|actions| - 1];
      RunIsSafe(config, now, before);
      if Enabled(Run(Initial(config, now), before), actions[|actions| - 1]) {
        StepKeepsSafe(Run(Initial(config, now), before), actions[|actions| - 1]);
      }
    }
  }
}

/**
 The connection object (src/atsq/connection.py). A block is what one task does between two awaits; its
 contract is the matching step of the session machine. Around each block stands a method that keeps the
 object valid and says what the validity makes of the step. The clock, the fate of sends and the wire
 itself belong to the environment; the ghost fields record the history.
 */
module RawConnection {
  import opened Sequences
  import opened Protocol
  import opened Demux
  import opened Session
  import opened SessionSafety
  import opened SessionTheorems
  import Effects = SessionEffects
  import Flood

  /** Each action is possible when its turn comes. */
  ghost predicate ArePossible(s: State, actions: seq<Action>) {
    forall i :: 0 <= i < |actions| ==> Enabled(Run(s, actions[..i]), actions[i])
  }

  class Connection {
    const config: Config
    var now: real
    var closed: bool
    var transportClosed: bool
    var receiving: bool
    var lock: Option<nat>
    var pending: Option<nat>
    var calls: Calls
    var dataBuffer: seq<Line>
    var lastActivity: real
    var queue: seq<QueueItem>
    var wire: seq<Sent>
    ghost var received: seq<Line>
    ghost var published: seq<Line>
    ghost var fates: seq<Fate>
    ghost var handed: seq<QueueItem>

    ghost function Log(): EventLog
      reads this
    {
      EventLog(queue, published, fates, handed)
    }

    ghost function View(): State
      reads this
    {
      State(config, now, closed, transportClosed, receiving, lock, pending, calls, dataBuffer, lastActivity,
            Log(), wire, received)
    }

    /** Valid objects are those that runs of the session can reach. */
    ghost predicate Valid()
      reads this
    {
      Safe(View())
    }

    /** No receive loop, no open future, and one sentinel ends the queue. */
    ghost predicate IsShutDown()
      reads this
    {
      && closed && !receiving
      && (forall c :: c in calls ==> !IsUnresolved(calls[c].phase))
      && |queue| > 0 && queue[|queue| - 1] == Sentinel
      && (forall i :: 0 <= i < |queue| - 1 ==> queue[i].Event?)
    }

    /** A started connection: greeting read, receive loop running. */
    constructor (config: Config, now: real)
      ensures Valid() && View() == Initial(config, now)
    {
      this.config, this.now, lastActivity := config, now, now;
      closed, transportClosed, receiving := false, false, true;
      lock, pending, calls := None, None, map[];
      dataBuffer, queue := [], [];
      wire, received, published, fates, handed := [], [], [], [], [];
      new;
      RunIsSafe(config, now, []);
    }

    /** The retry loop of `_publish_event` and `_publish_event_sentinel`; it always ends. */
    method PutItem(item: QueueItem)
      modifies this`queue, this`fates
      ensures Log() == Put(old(Log()), config.queueSize, item)
    {
      while true
        invariant |queue| <= |old(queue)|
        invariant WithRoom(queue, config.queueSize) == WithRoom(old(queue), config.queueSize)
        invariant fates == old(fates) + Drops(|old(queue)| - |queue|)
        decreases |queue|
      {
        if !IsFull(queue, config.queueSize) {
          queue := queue + [item];
          return;
        }
        assert Drops(|old(queue)| - |queue|) + [Dropped] == Drops(|old(queue)| - |queue| + 1);
        queue := queue[1..];
        fates := fates + [Dropped];
      }
    }

    /** `set_result` or `set_exception` on the pending future unless it is done. */
    method SettlePending(future: Future)
      modifies this`calls
      ensures calls == Settle(old(calls), pending, future)
    {
      if pending.Some? && pending.value in calls {
        var call := calls[pending.value];
        if call.phase == Draining(Unresolved) {
          calls := calls[pending.value := call.(phase := Draining(future))];
        } else if call.phase == Awaiting(Unresolved) {
          calls := calls[pending.value := call.(phase := Awaiting(future))];
        }
      }
    }

    /** `_shutdown`, up to the end of the receive loop or of the closing task's block. */
    method MarkClosed()
      requires !closed
      modifies this`closed, this`receiving, this`calls, this`queue, this`fates
      ensures closed && !receiving
      ensures calls == Settle(old(calls), pending, Failed)
      ensures Log() == Put(old(Log()), config.queueSize, Sentinel)
    {
      closed := true;
      SettlePending(Failed);
      PutItem(Sentinel);
      receiving := false;
    }

    /** `close` up to its first await. */
    method CloseBlock(quitOk: bool)
      modifies this
      ensures View() == Session.CloseBlock(old(View()), quitOk)
    {
      if closed {
        return;
      }
      MarkClosed();
      if !transportClosed {
        if quitOk {
          wire := wire + [Quit];
        } else {
          transportClosed := true;
        }
      }
    }

    /** The end of `close`. */
    method CloseTransportBlock()
      requires closed
      modifies this`transportClosed
      ensures View() == Step(old(View()), Action.CloseTransport)
    {
      transportClosed := true;
    }

    /** The receive loop finds the stream at its end. */
    method EndOfStreamBlock()
      requires receiving
      modifies this
      ensures View() == Step(old(View()), Action.EndOfStream)
    {
      if closed {
        receiving := false;
        return;
      }
      MarkClosed();
      transportClosed := true;
    }

    /** One pass of the receive loop: events, terminators and data lines part here. */
    method ReceiveBlock(line: Line)
      requires receiving
      modifies this
      ensures View() == ReceiveLine(old(View()), line)
    {
      received := received + [line];
      var kind := KindOf(line);
      if kind.Terminator? {
        var parsed := ParseErrorLine(line);
        EndResponse(parsed, line);
      } else {
        KeepLine(line, kind, ParsedError(line));
      }
    }

    method KeepLine(line: Line, kind: Kind, ghost parsed: Result<ErrorLine, ParseError>)
      requires !kind.Terminator?
      modifies this
      ensures View() == OnLine(old(View()), line, kind, parsed)
    {
      match kind {
        case Notification =>
          published := published + [line];
          PutItem(Event(line));
        case Data => dataBuffer := dataBuffer + [line];
        case Blank =>
      }
    }

    /** A terminator has come: hand the response over, or end the session if it cannot be read. */
    method EndResponse(parsed: Result<ErrorLine, ParseError>, ghost line: Line)
      modifies this
      ensures View() == OnLine(old(View()), line, Terminator, parsed)
    {
      var data := dataBuffer;
      dataBuffer := [];
      if parsed.Ok? {
        SettlePending(Resolved(data, parsed.value));
      } else if closed {
        receiving := false;
      } else {
        MarkClosed();
      }
    }

    // ----- One `exec` call -----

    method BeginBlock(c: nat, line: Line)
      requires c !in calls
      modifies this`calls
      ensures View() == MakeMove(old(View()), c, Move.Begin(line))
    {
      calls := calls[c := Call(line, LoopHead(config, 0), [])];
    }

    /** The call is over; the lock holder clears the pending slot and releases the lock on its way out. */
    method End(c: nat, outcome: Outcome)
      requires c in calls
      modifies this`calls, this`pending, this`lock
      ensures View() == Finish(old(View()), c, outcome)
    {
      if lock == Some(c) {
        pending := None;
        lock := None;
      }
      calls := calls[c := calls[c].(phase := Finished(outcome))];
    }

    /** From the lock to the write: the closed check, the pending slot and the send without an await. */
    method AcquireBlock(c: nat, writeOk: bool)
      requires CanMove(View(), c, Move.Acquire(writeOk))
      modifies this
      ensures View() == AcquireLock(old(View()), c, writeOk)
    {
      if closed || transportClosed {
        End(c, ConnectionClosed);
      } else if !writeOk {
        transportClosed := true;
        End(c, ConnectionClosed);
      } else {
        var call := calls[c];
        lock, pending := Some(c), Some(c);
        calls := calls[c := Call(call.line, Draining(Unresolved), call.attempts + [Attempt(|wire|, now, None)])];
        wire := wire + [Issued(c, call.line)];
      }
    }

    /** `send_line` comes back. */
    method SendReturnsBlock(c: nat, drainOk: bool)
      requires CanMove(View(), c, Move.SendReturns(drainOk))
      modifies this
      ensures View() == AfterSend(old(View()), c, drainOk)
    {
      if drainOk {
        lastActivity := now;
        calls := calls[c := calls[c].(phase := Awaiting(calls[c].phase.future))];
      } else {
        transportClosed := true;
        End(c, ConnectionClosed);
      }
    }

    /** The command timeout cancels the wait. */
    method ExpireBlock(c: nat)
      requires CanMove(View(), c, Move.Expire)
      modifies this`calls
      ensures View() == MakeMove(old(View()), c, Move.Expire)
    {
      calls := calls[c := calls[c].(phase := Expired)];
    }

    /** The timed-out call closes the connection, if nobody has. */
    method CloseAfterTimeoutBlock(c: nat, quitOk: bool)
      requires CanMove(View(), c, Move.CloseAfterTimeout(quitOk))
      modifies this
      ensures View() == MakeMove(old(View()), c, Move.CloseAfterTimeout(quitOk))
    {
      if closed {
        End(c, TimedOut);
      } else {
        calls := calls[c := calls[c].(phase := Closing)];
        CloseBlock(quitOk);
      }
    }

    method FinishClosingBlock(c: nat)
      requires CanMove(View(), c, Move.FinishClosing)
      modifies this
      ensures View() == MakeMove(old(View()), c, Move.FinishClosing)
    {
      transportClosed := true;
      End(c, TimedOut);
    }

    /** Rows, an error, or another try after the server's hint. */
    method Judge(answer: Answer, attempts: nat) returns (phase: Phase)
      ensures phase == AfterAnswer(config, now, attempts, answer)
    {
      if answer.error.Good() {
        var rows := ParseDataBlock(answer.data);
        phase := Finished(Rows(rows));
      } else if answer.error.id != Flood.FLOOD_ERROR_ID {
        phase := Finished(QueryFailed(answer.error));
      } else if attempts == config.floodRetries + 1 {
        phase := Finished(Flooded(answer.error));
      } else {
        phase := Sleeping(now + Flood.RetryAfter(answer.error) + 0.1);
      }
    }

    /** The future is settled: a failure is raised, a response becomes rows, an error or another try. */
    method ResumeBlock(c: nat)
      requires CanMove(View(), c, Move.Resume)
      modifies this
      ensures View() == MakeMove(old(View()), c, Move.Resume)
    {
      if calls[c].phase.future.Failed? {
        End(c, ConnectionClosed);
      } else {
        TakeAnswer(c);
      }
    }

    /** The `finally` clears the pending slot, the lock goes, and the call makes up its mind. */
    method TakeAnswer(c: nat)
      requires CanMove(View(), c, Move.Resume) && calls[c].phase.future.Resolved?
      modifies this`calls, this`pending, this`lock, this`lastActivity
      ensures View() == TakeResult(old(View()), c)
    {
      var call := calls[c];
      var data, error := call.phase.future.data, call.phase.future.error;
      pending := None;
      lastActivity := now;
      lock := None;
      var phase := Judge(Answer(data, error, now), |call.attempts|);
      calls := calls[c := Call(call.line, phase, RecordAnswer(call.attempts, Answer(data, error, now)))];
    }

    method WakeBlock(c: nat)
      requires CanMove(View(), c, Move.Wake)
      modifies this`calls
      ensures View() == MakeMove(old(View()), c, Move.Wake)
    {
      calls := calls[c := calls[c].(phase := LoopHead(config, |calls[c].attempts|))];
    }

    method CancelBlock(c: nat)
      requires CanMove(View(), c, Move.Cancel)
      modifies this
      ensures View() == MakeMove(old(View()), c, Move.Cancel)
    {
      End(c, Cancelled);
    }

    // ----- Event waiters and the clock -----

    /** A waiter gets the oldest event, or the news that the connection is closed, which stays for the next. */
    method TakeEventBlock() returns (event: Option<Line>)
      requires |queue| > 0
      modifies this`queue, this`fates, this`handed
      ensures View() == Step(old(View()), Action.TakeEvent)
      ensures event == if old(queue)[0].Event? then Some(old(queue)[0].line) else None
    {
      var item := queue[0];
      queue := queue[1..];
      handed := handed + [item];
      match item {
        case Event(line) =>
          fates := fates + [Delivered];
          event := Some(line);
        case Sentinel =>
          queue := queue + [Sentinel];
          event := None;
      }
    }

    method TickBlock(elapsed: real)
      requires elapsed >= 0.0
      modifies this`now
      ensures View() == Step(old(View()), Action.Tick(elapsed))
    {
      now := now + elapsed;
    }

    // ----- The object as its users see it -----

    /** `close`: whatever was open is settled, once. */
    method Close(quitOk: bool)
      requires Valid()
      modifies this
      ensures Valid() && View() == Step(old(View()), Action.Close(quitOk))
      ensures IsShutDown() && Effects.Closes(old(View()), View(), quitOk)
      ensures wire == if !old(closed) && !old(transportClosed) && quitOk then old(wire) + [Quit] else old(wire)
    {
      ghost var before := View();
      CloseBlock(quitOk);
      Effects.CloseCloses(before, quitOk);
      StepKeepsSafe(before, Action.Close(quitOk));
    }

    method CloseTransport()
      requires Valid() && closed
      modifies this
      ensures Valid() && View() == Step(old(View()), Action.CloseTransport)
      ensures IsShutDown() && View() == old(View()).(transportClosed := true)
    {
      ghost var before := View();
      CloseTransportBlock();
      StepKeepsSafe(before, Action.CloseTransport);
    }

    method EndOfStream()
      requires Valid() && receiving
      modifies this
      ensures Valid() && View() == Step(old(View()), Action.EndOfStream)
      ensures IsShutDown() && Effects.Ends(old(View()), View())
    {
      ghost var before := View();
      EndOfStreamBlock();
      Effects.EndOfStreamEnds(before);
      StepKeepsSafe(before, Action.EndOfStream);
    }

    /** A line received: buffer and events are those of sorting all lines so far. */
    method Receive(line: Line)
      requires Valid() && receiving
      modifies this
      ensures Valid() && View() == Step(old(View()), Action.Receive(line))
      ensures dataBuffer == Sort(received).partial && published == Sort(received).events
      ensures Effects.Receives(old(View()), View(), line)
    {
      ghost var before := View();
      ReceiveBlock(line);
      Effects.ReceiveReceives(before, line);
      StepKeepsSafe(before, Action.Receive(line));
    }

    method Begin(c: nat, line: Line)
      requires Valid() && CanMove(View(), c, Move.Begin(line))
      modifies this
      ensures Valid() && View() == Step(old(View()), Exec(c, Move.Begin(line)))
      ensures View() == old(View()).(calls := old(calls)[c := calls[c]])
      ensures calls[c] == Call(line, if config.floodRetries >= 0 then Queued else Finished(LoopEnded), [])
    {
      ghost var before := View();
      BeginBlock(c, line);
      StepKeepsSafe(before, Exec(c, Move.Begin(line)));
    }

    /** Closed, nothing is written; open, the writer holds lock and slot, and writes no more often than it may. */
    method Acquire(c: nat, writeOk: bool)
      requires Valid() && CanMove(View(), c, Move.Acquire(writeOk))
      modifies this
      ensures Valid() && View() == Step(old(View()), Exec(c, Move.Acquire(writeOk)))
      ensures Effects.Acquires(old(View()), View(), c, writeOk)
      ensures wire != old(wire) ==>
                && !closed && lock == pending == Some(c)
                && Writes(wire, c) == |calls[c].attempts| <= config.floodRetries + 1
    {
      ghost var before := View();
      AcquireBlock(c, writeOk);
      Effects.AcquireAcquires(before, c, writeOk);
      StepKeepsSafe(before, Exec(c, Move.Acquire(writeOk)));
      WritesAreCounted(View(), c);
    }

    method SendReturns(c: nat, drainOk: bool)
      requires Valid() && CanMove(View(), c, Move.SendReturns(drainOk))
      modifies this
      ensures Valid() && View() == Step(old(View()), Exec(c, Move.SendReturns(drainOk)))
      ensures Effects.Returns(old(View()), View(), c, drainOk)
    {
      ghost var before := View();
      SendReturnsBlock(c, drainOk);
      Effects.SendReturnsReturns(before, c, drainOk);
      StepKeepsSafe(before, Exec(c, Move.SendReturns(drainOk)));
    }

    method Expire(c: nat)
      requires Valid() && CanMove(View(), c, Move.Expire)
      modifies this
      ensures Valid() && View() == Step(old(View()), Exec(c, Move.Expire))
      ensures lock == pending == Some(c)
      ensures View() == old(View()).(calls := old(calls)[c := old(calls)[c].(phase := Expired)])
    {
      ghost var before := View();
      ExpireBlock(c);
      StepKeepsSafe(before, Exec(c, Move.Expire));
      HolderKeepsLock(before, c);
    }

    /** A timeout leaves a closed connection behind. */
    method CloseAfterTimeout(c: nat, quitOk: bool)
      requires Valid() && CanMove(View(), c, Move.CloseAfterTimeout(quitOk))
      modifies this
      ensures Valid() && View() == Step(old(View()), Exec(c, Move.CloseAfterTimeout(quitOk)))
      ensures IsShutDown() && Effects.TimesOut(old(View()), View(), c, quitOk)
      ensures wire == if !old(closed) && !old(transportClosed) && quitOk then old(wire) + [Quit] else old(wire)
    {
      ghost var before := View();
      CloseAfterTimeoutBlock(c, quitOk);
      Effects.TimeoutTimesOut(before, c, quitOk);
      StepKeepsSafe(before, Exec(c, Move.CloseAfterTimeout(quitOk)));
    }

    method FinishClosing(c: nat)
      requires Valid() && CanMove(View(), c, Move.FinishClosing)
      modifies this
      ensures Valid() && View() == Step(old(View()), Exec(c, Move.FinishClosing))
      ensures lock == pending == None && transportClosed
      ensures Effects.Finishes(old(View()), View(), c, TimedOut)
    {
      ghost var before := View();
      FinishClosingBlock(c);
      Effects.LastSteps(before, c);
      StepKeepsSafe(before, Exec(c, Move.FinishClosing));
      HolderKeepsLock(before, c);
    }

    /** The slot is cleared and the lock released, whatever came. */
    method Resume(c: nat)
      requires Valid() && CanMove(View(), c, Move.Resume)
      modifies this
      ensures Valid() && View() == Step(old(View()), Exec(c, Move.Resume))
      ensures |old(calls)[c].attempts| > 0 && Effects.Resumes(old(View()), View(), c)
    {
      ghost var before := View();
      AwaitingHasWritten(before, c);
      ResumeBlock(c);
      Effects.ResumeResumes(before, c);
      StepKeepsSafe(before, Exec(c, Move.Resume));
    }

    /** A sleeper always has a try left: the end of the retry loop is not reached. */
    method Wake(c: nat)
      requires Valid() && CanMove(View(), c, Move.Wake)
      modifies this
      ensures Valid() && View() == Step(old(View()), Exec(c, Move.Wake))
      ensures View() == old(View()).(calls := old(calls)[c := old(calls)[c].(phase := Queued)])
    {
      ghost var before := View();
      WakeBlock(c);
      StepKeepsSafe(before, Exec(c, Move.Wake));
      CallsKeptByWake(before, c);
    }

    method Cancel(c: nat)
      requires Valid() && CanMove(View(), c, Move.Cancel)
      modifies this
      ensures Valid() && View() == Step(old(View()), Exec(c, Move.Cancel))
      ensures lock != Some(c) && pending != Some(c) && transportClosed == old(transportClosed)
      ensures Effects.Finishes(old(View()), View(), c, Cancelled)
    {
      ghost var before := View();
      CancelBlock(c);
      Effects.LastSteps(before, c);
      StepKeepsSafe(before, Exec(c, Move.Cancel));
    }

    /** The oldest event not gone yet; on a closed and drained queue the closed error, with the sentinel kept. */
    method TakeEvent() returns (event: Option<Line>)
      requires Valid() && |queue| > 0
      modifies this
      ensures Valid() && View() == Step(old(View()), Action.TakeEvent)
      ensures View() == old(View()).(log := Log()) && published == old(published)
      ensures if |old(fates)| < |published| then event == Some(published[|old(fates)|])
              else event == None && closed && queue == old(queue) == [Sentinel]
    {
      ghost var before := View();
      event := TakeEventBlock();
      StepKeepsSafe(before, Action.TakeEvent);
    }

    method Tick(elapsed: real)
      requires Valid() && elapsed >= 0.0
      modifies this
      ensures Valid() && View() == Step(old(View()), Action.Tick(elapsed))
      ensures View() == old(View()).(now := old(now) + elapsed)
    {
      ghost var before := View();
      TickBlock(elapsed);
      StepKeepsSafe(before, Action.Tick(elapsed));
    }

    /** One possible step, whoever takes it. */
    method Perform(a: Action)
      requires Valid() && Enabled(View(), a)
      modifies this
      ensures Valid() && View() == Step(old(View()), a)
    {
      match a
      case Exec(c, m) => PerformMove(c, m);
      case Receive(line) => Receive(line);
      case EndOfStream => EndOfStream();
      case Close(quitOk) => Close(quitOk);
      case CloseTransport => CloseTransport();
      case TakeEvent => var _ := TakeEvent();
      case Tick(elapsed) => Tick(elapsed);
    }

    method PerformMove(c: nat, m: Move)
      requires Valid() && CanMove(View(), c, m)
      modifies this
      ensures Valid() && View() == Step(old(View()), Exec(c, m))
    {
      match m
      case Begin(line) => Begin(c, line);
      case Acquire(writeOk) => Acquire(c, writeOk);
      case SendReturns(drainOk) => SendReturns(c, drainOk);
      case Expire => Expire(c);
      case CloseAfterTimeout(quitOk) => CloseAfterTimeout(c, quitOk);
      case FinishClosing => FinishClosing(c);
      case Resume => Resume(c);
      case Wake => Wake(c);
      case Cancel => Cancel(c);
    }

    /**
     Any number of steps. What the session machine's runs keep, the object keeps; once closed it writes
     nothing more and hands the waiters the rest of the events and then the closed error.
     */
    method PerformAll(actions: seq<Action>)
      requires Valid() && ArePossible(View(), actions)
      modifies this
      ensures Valid() && View() == Run(old(View()), actions)
      ensures old(closed) ==> IsShutDown() && wire == old(wire) && published == old(published)
      ensures old(closed) ==> handed == old(handed) + Handout(Rest(old(Log())), Takes(actions))
    {
      ghost var start := View();
      for i := 0 to |actions|
        invariant Valid() && View() == Run(start, actions[..i])
      {
        assert actions[..i + 1][..i] == actions[..i];
        Perform(actions[i]);
      }
      assert actions[..|actions|] == actions;
      if start.closed {
        ClosedForGood(start, actions);
        WaitersDrainClosedQueue(start, actions);
      }
    }
  }

  /** A connection that lives through any run from its start on is what the run says. */
  method Live(config: Config, now: real, actions: seq<Action>) returns (connection: Connection)
    requires ArePossible(Initial(config, now), actions)
    ensures fresh(connection) && connection.Valid()
    ensures connection.View() == Run(Initial(config, now), actions)
    ensures forall i :: 0 <= i < |connection.wire| && connection.wire[i].Quit? ==>
              i == |connection.wire| - 1 && connection.closed
    ensures connection.published == Sort(connection.received).events
  {
    connection := new Connection(config, now);
    connection.PerformAll(actions);
    WireIsCommandsAndSorted(connection.View());
  }

  lemma {:induction false} WireIsCommandsAndSorted(s: State)
    requires Safe(s)
    ensures forall i :: 0 <= i < |s.wire| && s.wire[i].Quit? ==> i == |s.wire| - 1 && s.closed
    ensures s.log.published == Sort(s.received).events
  {
  }

  lemma {:induction false} AwaitingHasWritten(s: State, c: nat)
    requires Safe(s) && c in s.calls && s.calls[c].phase.Awaiting?
    ensures |s.calls[c].attempts| > 0
  {
    assert CallOk(s.config, s.now, s.wire, c, s.calls[c]);
  }

  lemma {:induction false} WritesAreCounted(s: State, c: nat)
    requires Safe(s) && c in s.calls && s.calls[c].phase != Finished(LoopEnded)
    ensures Writes(s.wire, c) == |s.calls[c].attempts| <= s.config.floodRetries + 1
  {
    assert CallOk(s.config, s.now, s.wire, c, s.calls[c]);
  }

  /** Between write and release a call is the lock holder. */
  lemma {:induction false} HolderKeepsLock(s: State, c: nat)
    requires Safe(s) && c in s.calls && Holds(s.calls[c].phase)
    ensures s.lock == s.pending == Some(c)
  {
  }
}

/**
 The query session (src/atsq/connection.py) as a state machine. A step is what runs between two
 awaits of one task; the steps of all callers, the receive loop, the event waiters, the closer,
 the timeouts and the clock interleave freely. The state carries the history that the properties
 speak about: lines written, lines received, what became of each event, what each waiter was given.
 */
module Session {
  import opened Sequences
  import opened Protocol
  import opened Demux
  import Flood

  datatype Config = Config(queueSize: int, floodRetries: int)

  /** The future an `exec` call waits on. */
  datatype Future = Unresolved | Resolved(data: seq<Line>, error: ErrorLine) | Failed

  datatype Outcome =
    | Rows(records: seq<Record>)
    | QueryFailed(error: ErrorLine)
    | Flooded(error: ErrorLine)
    | ConnectionClosed
    | TimedOut
    | Cancelled
    | LoopEnded                   // the retry loop ran out of range: the assertion behind it

  /** Where one `exec` call stands. */
  datatype Phase =
    | Queued                      // waiting for the command lock
    | Draining(future: Future)    // line written, `send_line` not back yet
    | Awaiting(future: Future)    // waiting for the response
    | Expired                     // the timeout has fired and cancelled the future
    | Closing                     // inside the `close` that a timeout calls
    | Sleeping(until: real)       // between flood retries
    | Finished(outcome: Outcome)

  datatype Answer = Answer(data: seq<Line>, error: ErrorLine, at: real)

  /** One writing of the call's line: its place on the wire, and the answer the call took for it. */
  datatype Attempt = Attempt(slot: nat, writtenAt: real, answer: Option<Answer>)

  datatype Call = Call(line: Line, phase: Phase, attempts: seq<Attempt>)

  datatype Sent = Issued(caller: nat, line: Line) | Quit

  datatype QueueItem = Event(line: Line) | Sentinel

  datatype Fate = Delivered | Dropped

  /** The event queue with its history: events published, the fate of those gone, what waiters were given. */
  datatype EventLog = EventLog(
    queue: seq<QueueItem>,
    published: seq<Line>,
    fates: seq<Fate>,
    handed: seq<QueueItem>)

  type Calls = map<nat, Call>

  datatype State = State(
    config: Config,
    now: real,
    closed: bool,
    transportClosed: bool,
    receiving: bool,
    lock: Option<nat>,
    pending: Option<nat>,
    calls: Calls,
    dataBuffer: seq<Line>,
    lastActivity: real,
    log: EventLog,
    wire: seq<Sent>,
    received: seq<Line>)

  function Initial(config: Config, now: real): State {
    State(config, now, false, false, true, None, None, map[], [], now, EventLog([], [], [], []), [], [])
  }

  /** The steps of one `exec` call. */
  datatype Move =
    | Begin(line: Line)
    | Acquire(writeOk: bool)
    | SendReturns(drainOk: bool)
    | Expire
    | CloseAfterTimeout(quitOk: bool)
    | FinishClosing
    | Resume
    | Wake
    | Cancel

  datatype Action =
    | Exec(caller: nat, move: Move)
    | Receive(line: Line)
    | EndOfStream
    | Close(quitOk: bool)
    | CloseTransport
    | TakeEvent
    | Tick(elapsed: real)

  // ----- Calls -----

  predicate Holds(phase: Phase) {
    phase.Draining? || phase.Awaiting? || phase.Expired? || phase.Closing?
  }

  function SetPhase(calls: Calls, c: nat, phase: Phase): Calls
    requires c in calls
  {
    calls[c := calls[c].(phase := phase)]
  }

  /** A call ends. If it holds the lock, the pending slot is cleared and the lock released. */
  function Finish(s: State, c: nat, outcome: Outcome): State
    requires c in s.calls
  {
    s.(calls := SetPhase(s.calls, c, Finished(outcome)),
    lock := if s.lock == Some(c) then None else s.lock,
    pending := if s.lock == Some(c) then None else s.pending)
  }

  predicate IsUnresolved(phase: Phase) {
    phase == Draining(Unresolved) || phase == Awaiting(Unresolved)
  }

  /** `set_result` and `set_exception` on the pending future, if there is one and it is not done. */
  function Settle(calls: Calls, pending: Option<nat>, future: Future): Calls {
    if pending.Some? && pending.value in calls && IsUnresolved(calls[pending.value].phase) then
      var phase := if calls[pending.value].phase.Draining? then Draining(future) else Awaiting(future);
      SetPhase(calls, pending.value, phase)
    else calls
  }

  // ----- The event queue -----

  predicate IsFull(queue: seq<QueueItem>, size: int) {
    size > 0 && |queue| >= size
  }

  /** Dropping the oldest items until one more fits. */
  function WithRoom(queue: seq<QueueItem>, size: int): (r: seq<QueueItem>)
    ensures |r| <= |queue|
  {
    if IsFull(queue, size) then WithRoom(queue[1..], size) else queue
  }

  function Drops(n: nat): (r: seq<Fate>)
    ensures |r| == n
  {
    seq(n, _ => Dropped)
  }

  /** Putting an item, at the price of the oldest ones when the queue is full. */
  function Put(log: EventLog, size: int, item: QueueItem): EventLog {
    var room := WithRoom(log.queue, size);
    log.(queue := room + [item], fates := log.fates + Drops(|log.queue| - |room|))
  }

  function Publish(log: EventLog, size: int, line: Line): EventLog {
    Put(log.(published := log.published + [line]), size, Event(line))
  }

  /** A waiter takes the head; the sentinel goes back for the next waiter. */
  function Take(log: EventLog): EventLog
    requires |log.queue| > 0
  {
    match log.queue[0]
    case Event(line) =>
      log.(queue := log.queue[1..], fates := log.fates + [Delivered], handed := log.handed + [Event(line)])
    case Sentinel =>
      log.(queue := log.queue[1..] + [Sentinel], handed := log.handed + [Sentinel])
  }

  // ----- Closing and receiving -----

  /** `_shutdown` by the receive loop, which then ends; `transport` says whether the stream has ended too. */
  function Shutdown(s: State, transport: bool): State {
    if s.closed then s.(receiving := false)
    else
      s.(closed := true, receiving := false, transportClosed := s.transportClosed || transport,
      calls := Settle(s.calls, s.pending, Failed),
      log := Put(s.log, s.config.queueSize, Sentinel))
  }

  /** The part of `close` before its first await: shutdown, cancel the receive loop, write `quit`. */
  function CloseBlock(s: State, quitOk: bool): State {
    if s.closed then s
    else
      s.(closed := true, receiving := false,
      calls := Settle(s.calls, s.pending, Failed),
      log := Put(s.log, s.config.queueSize, Sentinel),
      wire := if !s.transportClosed && quitOk then s.wire + [Quit] else s.wire,
      transportClosed := s.transportClosed || !quitOk)
  }

  /** An error line ends the response: the pending call gets it, and an unreadable one ends the session. */
  function OnLine(s: State, line: Line, kind: Kind, parsed: Result<ErrorLine, ParseError>): State {
    match kind
    case Blank => s
    case Notification => s.(log := Publish(s.log, s.config.queueSize, line))
    case Terminator =>
      if parsed.Ok? then
        s.(dataBuffer := [], calls := Settle(s.calls, s.pending, Resolved(s.dataBuffer, parsed.value)))
      else Shutdown(s.(dataBuffer := []), false)
    case Data => s.(dataBuffer := s.dataBuffer + [line])
  }

  /** One pass of the receive loop. */
  function ReceiveLine(s: State, line: Line): State {
    OnLine(s.(received := s.received + [line]), line, KindOf(line), ParsedError(line))
  }

  // ----- One `exec` call -----

  /** With the lock in hand: the closed check, then the pending slot and the write, with no await between. */
  function AcquireLock(s: State, c: nat, writeOk: bool): State
    requires c in s.calls
  {
    if s.closed || s.transportClosed then Finish(s, c, ConnectionClosed)
    else if !writeOk then Finish(s.(transportClosed := true), c, ConnectionClosed)
    else
      var call := s.calls[c];
      var attempt := Attempt(|s.wire|, s.now, None);
      s.(calls := s.calls[c := Call(call.line, Draining(Unresolved), call.attempts + [attempt])],
      lock := Some(c), pending := Some(c), wire := s.wire + [Issued(c, call.line)])
  }

  function AfterSend(s: State, c: nat, drainOk: bool): State
    requires c in s.calls && s.calls[c].phase.Draining?
  {
    if drainOk then
      s.(lastActivity := s.now, calls := SetPhase(s.calls, c, Awaiting(s.calls[c].phase.future)))
    else Finish(s.(transportClosed := true), c, ConnectionClosed)
  }

  /** The head of the retry loop: another try while the range has one, else the end of the loop. */
  function LoopHead(config: Config, attempts: nat): Phase {
    if attempts < config.floodRetries + 1 then Queued else Finished(LoopEnded)
  }

  /** What the call makes of its answer: rows, an error, or another try after the server's hint. */
  function AfterAnswer(config: Config, now: real, attempts: nat, answer: Answer): Phase {
    if answer.error.Good() then Finished(Rows(BlockRecords(answer.data)))
    else if answer.error.id != Flood.FLOOD_ERROR_ID then Finished(QueryFailed(answer.error))
    else if attempts == config.floodRetries + 1 then Finished(Flooded(answer.error))
    else Sleeping(now + Flood.RetryAfter(answer.error) + 0.1)
  }

  function RecordAnswer(attempts: seq<Attempt>, answer: Answer): seq<Attempt> {
    if |attempts| == 0 then attempts
    else attempts[|attempts| - 1 := attempts[|attempts| - 1].(answer := Some(answer))]
  }

  function TakeResult(s: State, c: nat): State
    requires c in s.calls && s.calls[c].phase.Awaiting? && s.calls[c].phase.future.Resolved?
  {
    var call := s.calls[c];
    var answer := Answer(call.phase.future.data, call.phase.future.error, s.now);
    var phase := AfterAnswer(s.config, s.now, |call.attempts|, answer);
    s.(lastActivity := s.now, lock := None, pending := None,
    calls := s.calls[c := Call(call.line, phase, RecordAnswer(call.attempts, answer))])
  }

  // ----- The steps -----

  predicate CanMove(s: State, c: nat, m: Move) {
    if m.Begin? then c !in s.calls
    else
      && c in s.calls
      && var phase := s.calls[c].phase;
         match m
         case Begin(_) => false
         case Acquire(_) => phase.Queued? && s.lock.None?
         case SendReturns(_) => phase.Draining?
         case Expire => phase.Awaiting?
         case CloseAfterTimeout(_) => phase.Expired?
         case FinishClosing => phase.Closing?
         case Resume => phase.Awaiting? && !phase.future.Unresolved?
         case Wake => phase.Sleeping? && s.now >= phase.until
         case Cancel => !phase.Finished?
  }

  function MakeMove(s: State, c: nat, m: Move): State
    requires CanMove(s, c, m)
  {
    match m
    case Begin(line) =>
      s.(calls := s.calls[c := Call(line, LoopHead(s.config, 0), [])])
    case Acquire(writeOk) => AcquireLock(s, c, writeOk)
    case SendReturns(drainOk) => AfterSend(s, c, drainOk)
    case Expire => s.(calls := SetPhase(s.calls, c, Expired))
    case CloseAfterTimeout(quitOk) =>
      if s.closed then Finish(s, c, TimedOut)
      else CloseBlock(s.(calls := SetPhase(s.calls, c, Closing)), quitOk)
    case FinishClosing => Finish(s.(transportClosed := true), c, TimedOut)
    case Resume =>
      if s.calls[c].phase.future.Failed? then Finish(s, c, ConnectionClosed) else TakeResult(s, c)
    case Wake => s.(calls := SetPhase(s.calls, c, LoopHead(s.config, |s.calls[c].attempts|)))
    case Cancel => Finish(s, c, Cancelled)
  }

  predicate Enabled(s: State, a: Action) {
    match a
    case Exec(c, m) => CanMove(s, c, m)
    case Receive(_) => s.receiving
    case EndOfStream => s.receiving
    case Close(_) => true
    case CloseTransport => s.closed
    case TakeEvent => |s.log.queue| > 0
    case Tick(elapsed) => elapsed >= 0.0
  }

  function Step(s: State, a: Action): State
    requires Enabled(s, a)
  {
    match a
    case Exec(c, m) => MakeMove(s, c, m)
    case Receive(line) => ReceiveLine(s, line)
    case EndOfStream => Shutdown(s, true)
    case Close(quitOk) => CloseBlock(s, quitOk)
    case CloseTransport => s.(transportClosed := true)
    case TakeEvent => s.(log := Take(s.log))
    case Tick(elapsed) => s.(now := s.now + elapsed)
  }

  /** A step that is not possible leaves the state alone, so every list of actions is a run. */
  function Next(s: State, a: Action): State {
    if Enabled(s, a) then Step(s, a) else s
  }

  function Run(s: State, actions: seq<Action>): State {
    if |actions| == 0 then s else Next(Run(s, actions[..|actions| - 1]), actions[|actions| - 1])
  }
}

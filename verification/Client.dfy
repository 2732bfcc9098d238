/** The client: setting a connection up, and owning it through reconnects (src/atsq/client.py). */
module Client {
  import opened Sequences
  import opened Protocol
  import Backoff
  import Flood

  // ----- What the environment answers -----

  /** How one `exec` call ends; flood retries happen inside it. */
  datatype Answer =
    | Accepted
    | Refused(banned: bool)                  // a query error
    | Lost(written: bool, banned: bool)      // the connection died before or after the write
    | Late(banned: bool)                     // the command timed out
    | Interrupted(written: bool)             // cancelled from outside

  /**
   One attempt to connect: the transport, the greeting, the error if one of them fails (a cancellation
   among them), the answers to the setup commands, and whether the connection has dropped by the time a
   successful start returns.
   */
  datatype Attempt = Attempt(
    transportOk: bool,
    greetingOk: bool,
    failure: Failure,
    answers: seq<Answer>,
    dropsEarly: bool)

  datatype Failure = Failure(banned: bool, cancelled: bool)

  function FailureOf(a: Answer): Failure
    requires !a.Accepted?
  {
    match a
    case Refused(banned) => Failure(banned, false)
    case Lost(_, banned) => Failure(banned, false)
    case Late(banned) => Failure(banned, false)
    case Interrupted(_) => Failure(false, true)
  }

  // ----- The setup transaction -----

  datatype Registration = Registration(event: string, channel: Option<int>)

  datatype Config = Config(
    serverId: Option<int>,
    serverPort: Option<int>,
    nickname: Option<string>,
    registrations: seq<Registration>)

  function IntText(n: int): string {
    if n < 0 then "-" + Flood.Decimal(-n) else Flood.Decimal(n)
  }

  function Plain(name: string, params: Params): Command {
    Command(name, [], None, params)
  }

  function UseById(id: int): Command {
    Plain("use", [Param("sid", One(Text(IntText(id))))])
  }

  function UseByPort(port: int): Command {
    Plain("use", [Param("port", One(Text(IntText(port))))])
  }

  function SetNickname(nickname: string): Command {
    Plain("clientupdate", [Param("client_nickname", One(Text(nickname)))])
  }

  function Register(r: Registration): Command {
    Plain("servernotifyregister",
          [Param("event", One(Text(r.event))),
           Param("id", One(if r.channel.Some? then Text(IntText(r.channel.value)) else Null))])
  }

  /** A setup command, and whether the server may refuse it without harm. */
  datatype SetupStep = SetupStep(command: Command, mayBeRefused: bool)

  function RegisterAll(rs: seq<Registration>): (r: seq<SetupStep>)
    ensures |r| == |rs|
    ensures forall i :: 0 <= i < |rs| ==> r[i] == SetupStep(Register(rs[i]), false)
  {
    seq(|rs|, i requires 0 <= i < |rs| => SetupStep(Register(rs[i]), false))
  }

  function UseSteps(c: Config): seq<SetupStep> {
    if c.serverId.Some? then [SetupStep(UseById(c.serverId.value), false)]
    else if c.serverPort.Some? then [SetupStep(UseByPort(c.serverPort.value), false)]
    else []
  }

  function NicknameSteps(c: Config): seq<SetupStep> {
    if c.nickname.Some? then [SetupStep(SetNickname(c.nickname.value), true)] else []
  }

  /** The setup in order: `use`, the nickname, the registrations. */
  function SetupSteps(c: Config): seq<SetupStep> {
    UseSteps(c) + NicknameSteps(c) + RegisterAll(c.registrations)
  }

  predicate Tolerated(step: SetupStep, a: Answer) {
    a.Accepted? || (step.mayBeRefused && a.Refused?)
  }

  predicate WasWritten(a: Answer) {
    match a
    case Lost(written, _) => written
    case Interrupted(written) => written
    case _ => true
  }

  /** How many commands are on the wire when setup stops at number `k`. */
  function WrittenUpTo(answers: seq<Answer>, k: nat): (r: nat)
    ensures r == k || r == k + 1
    ensures r == k <==> AnswerAt(answers, k) in {Lost(false, false), Lost(false, true), Interrupted(false)}
  {
    if WasWritten(AnswerAt(answers, k)) then k + 1 else k
  }

  function CommandsOf(steps: seq<SetupStep>): (r: seq<Command>)
    ensures |r| == |steps|
    ensures forall i :: 0 <= i < |steps| ==> r[i] == steps[i].command
  {
    seq(|steps|, i requires 0 <= i < |steps| => steps[i].command)
  }

  /** A server that says nothing more has lost the connection. */
  function AnswerAt(answers: seq<Answer>, i: nat): Answer {
    if i < |answers| then answers[i] else Lost(false, false)
  }

  /** The first steps all went through. */
  predicate AllTolerated(steps: seq<SetupStep>, answers: seq<Answer>) {
    forall i :: 0 <= i < |steps| ==> Tolerated(steps[i], AnswerAt(answers, i))
  }

  // ----- The connection as the client sees it -----

  class Connection {
    var closed: bool
    var trace: seq<Command>     // commands written, in order
    var asked: nat              // how many commands were given to `exec`
    const answers: seq<Answer>

    constructor (answers: seq<Answer>)
      ensures !closed && trace == [] && asked == 0 && this.answers == answers
    {
      this.answers, closed, trace, asked := answers, false, [], 0;
    }

    method Exec(c: Command) returns (a: Answer)
      modifies this
      ensures a == AnswerAt(answers, old(asked)) && asked == old(asked) + 1
      ensures trace == if WasWritten(a) then old(trace) + [c] else old(trace)
      ensures closed == (old(closed) || a.Lost? || a.Late?)
    {
      a := AnswerAt(answers, asked);
      asked := asked + 1;
      if WasWritten(a) {
        trace := trace + [c];
      }
      if a.Lost? || a.Late? {
        closed := true;
      }
    }

    method Close()
      modifies this`closed
      ensures closed
    {
      closed := true;
    }
  }

  // ----- The client -----

  /** The setup commands up to number `k` went through, in order, and nothing else was written. */
  ghost predicate SetUpTo(c: Connection, steps: seq<SetupStep>, k: nat)
    reads c
  {
    && k <= |steps|
    && c.asked == k
    && !c.closed
    && c.trace == CommandsOf(steps)[..k]
    && AllTolerated(steps[..k], c.answers)
  }

  /** Setup stopped at a command that failed; what was written is the setup up to there. */
  ghost predicate StoppedAt(c: Connection, steps: seq<SetupStep>, k: nat, failure: Failure)
    reads c
  {
    && k < |steps|
    && c.trace == CommandsOf(steps)[..WrittenUpTo(c.answers, k)]
    && AllTolerated(steps[..k], c.answers)
    && !Tolerated(steps[k], AnswerAt(c.answers, k))
    && failure == FailureOf(AnswerAt(c.answers, k))
  }

  predicate Succeeds(config: Config, attempt: Attempt) {
    attempt.transportOk && attempt.greetingOk && AllTolerated(SetupSteps(config), attempt.answers)
  }

  /** The first step from number `k` on that does not go through, or the number of steps. */
  function FirstStop(steps: seq<SetupStep>, answers: seq<Answer>, k: nat): (r: nat)
    requires k <= |steps|
    ensures k <= r <= |steps| && forall i :: k <= i < r ==> Tolerated(steps[i], AnswerAt(answers, i))
    ensures r < |steps| ==> !Tolerated(steps[r], AnswerAt(answers, r))
    decreases |steps| - k
  {
    if k < |steps| && Tolerated(steps[k], AnswerAt(answers, k)) then FirstStop(steps, answers, k + 1) else k
  }

  /** The error that an attempt to start ends with. */
  function StartError(config: Config, attempt: Attempt): Option<Failure> {
    if !attempt.transportOk || !attempt.greetingOk then Some(attempt.failure)
    else
      var steps := SetupSteps(config);
      var k := FirstStop(steps, attempt.answers, 0);
      if k == |steps| then None else Some(FailureOf(AnswerAt(attempt.answers, k)))
  }

  /** What went through before the first stop, and nothing else, was tolerated. */
  lemma {:induction false} FirstStopIs(steps: seq<SetupStep>, answers: seq<Answer>, k: nat, stop: nat)
    requires k <= stop <= |steps| && AllTolerated(steps[..stop], answers)
    requires stop < |steps| ==> !Tolerated(steps[stop], AnswerAt(answers, stop))
    ensures FirstStop(steps, answers, k) == stop
  {
  }

  /** An attempt ends without an error exactly when every part of it went well. */
  lemma {:induction false} StartErrorIffNot(config: Config, attempt: Attempt)
    ensures StartError(config, attempt).None? <==> Succeeds(config, attempt)
  {
  }

  predicate StillOpen(conn: Connection?)
    reads conn
  {
    conn != null && !conn.closed
  }

  /** What happens in one pass of the reconnect loop besides the start. */
  datatype Pass = Pass(
    attempt: Attempt,
    readyFails: Option<Failure>,
    stopsMeanwhile: bool,
    dropsInSleep: bool,
    stopsInSleep: bool)

  datatype Wait = Wait(banned: bool, seconds: real)

  datatype PassLog = PassLog(tried: bool, started: bool, readyCalls: nat, wait: Option<Wait>)

  /** A start that is tried succeeds as the transaction says, and readiness follows each success once. */
  predicate PassOk(config: Config, hasReady: bool, pass: Pass, entry: PassLog) {
    && (entry.started <==> entry.tried && Succeeds(config, pass.attempt))
    && entry.readyCalls == (if entry.started && hasReady then 1 else 0)
  }

  /** The connection outlives a pass only if `on_ready` raised, and only until it drops. */
  predicate LeavesOpen(hasReady: bool, pass: Pass, entry: PassLog) {
    entry.started && hasReady && pass.readyFails.Some? && !pass.attempt.dropsEarly && !pass.dropsInSleep
  }

  /** The error of a pass, if it has one: of the start that was tried, or of `on_ready`. */
  function PassError(config: Config, hasReady: bool, pass: Pass, entry: PassLog): Option<Failure> {
    if entry.started then (if hasReady then pass.readyFails else None)
    else if entry.tried then StartError(config, pass.attempt)
    else None
  }

  /** A cancellation or a `close` ends the loop without a wait; a banned error alone makes a banned wait. */
  predicate WaitDecided(config: Config, hasReady: bool, pass: Pass, entry: PassLog) {
    var error := PassError(config, hasReady, pass, entry);
    && (entry.wait.None? <==> (error.Some? && error.value.cancelled) || pass.stopsMeanwhile)
    && (entry.wait.Some? ==> (entry.wait.value.banned <==> error.Some? && error.value.banned))
  }

  predicate LogOk(config: Config, hasReady: bool, passes: seq<Pass>, log: seq<PassLog>) {
    && |log| <= |passes|
    && (forall i :: 0 <= i < |log| ==>
          PassOk(config, hasReady, passes[i], log[i]) && WaitDecided(config, hasReady, passes[i], log[i]))
    && (forall i :: 0 < i < |log| ==> (!log[i].tried <==> LeavesOpen(hasReady, passes[i - 1], log[i - 1])))
  }

  /** Passes since the delay was last reset: by a start that succeeded, or at the beginning. */
  function Since(log: seq<PassLog>, i: nat): nat
    requires i < |log|
  {
    if log[i].started || i == 0 then 0 else Since(log, i - 1) + 1
  }

  predicate WaitOk(log: seq<PassLog>, i: nat, initial: real, max: real, banned: real)
    requires i < |log| && log[i].wait.Some?
  {
    log[i].wait.value.seconds ==
    if log[i].wait.value.banned then banned else Backoff.DelayAfter(initial, max, Since(log, i))
  }

  lemma {:induction false} SincePrefix(log: seq<PassLog>, entry: PassLog, i: nat)
    requires i < |log|
    ensures Since(log + [entry], i) == Since(log, i)
  {
    if !log[i].started && i > 0 {
      SincePrefix(log, entry, i - 1);
    }
  }

  /** Every pass so far ended in a wait of the right length. */
  predicate WaitsOk(log: seq<PassLog>, initial: real, max: real, banned: real) {
    forall i :: 0 <= i < |log| ==> log[i].wait.Some? && WaitOk(log, i, initial, max, banned)
  }

  lemma {:induction false} LogGrows(config: Config, hasReady: bool, passes: seq<Pass>, log: seq<PassLog>,
                                    entry: PassLog)
    requires LogOk(config, hasReady, passes, log) && |log| < |passes|
    requires PassOk(config, hasReady, passes[|log|], entry) && WaitDecided(config, hasReady, passes[|log|], entry)
    requires |log| > 0 ==> (!entry.tried <==> LeavesOpen(hasReady, passes[|log| - 1], log[|log| - 1]))
    ensures LogOk(config, hasReady, passes, log + [entry])
  {
    var longer := log + [entry];
    assert forall i :: 0 <= i < |log| ==> longer[i] == log[i];
  }

  /** Every pass but the last ended in a wait, and every wait has the right length. */
  predicate AllButLastWait(log: seq<PassLog>, initial: real, max: real, banned: real) {
    && (forall i :: 0 <= i < |log| && log[i].wait.Some? ==> WaitOk(log, i, initial, max, banned))
    && (forall i :: 0 <= i < |log| - 1 ==> log[i].wait.Some?)
  }

  /** The delay a pass goes into its wait with. */
  function StartOf(entry: PassLog, delay: real, initial: real): real {
    if entry.started then initial else delay
  }

  predicate WaitFits(entry: PassLog, delay: real, initial: real, banned: real)
    requires entry.wait.Some?
  {
    entry.wait.value.seconds == if entry.wait.value.banned then banned else StartOf(entry, delay, initial)
  }

  /** Passes since the last reset, counting the one that comes next if it resets nothing. */
  function NextSince(log: seq<PassLog>): nat {
    if |log| == 0 then 0 else Since(log, |log| - 1) + 1
  }

  /** The log of the passes so far, and the delay that the next one starts with. */
  predicate Recorded(config: Config, hasReady: bool, passes: seq<Pass>, log: seq<PassLog>,
                     initial: real, max: real, banned: real, delay: real)
  {
    && LogOk(config, hasReady, passes, log)
    && WaitsOk(log, initial, max, banned)
    && delay == Backoff.DelayAfter(initial, max, NextSince(log))
  }

  lemma {:induction false} SinceOfNext(log: seq<PassLog>, entry: PassLog)
    ensures Since(log + [entry], |log|) == if entry.started then 0 else NextSince(log)
  {
    if |log| > 0 {
      SincePrefix(log, entry, |log| - 1);
    }
  }

  lemma {:induction false} EarlierWaitsKept(log: seq<PassLog>, entry: PassLog, initial: real, max: real, banned: real)
    requires WaitsOk(log, initial, max, banned)
    ensures forall i :: 0 <= i < |log| ==>
              (log + [entry])[i].wait.Some? && WaitOk(log + [entry], i, initial, max, banned)
  {
    forall i | 0 <= i < |log|
      ensures (log + [entry])[i].wait.Some? && WaitOk(log + [entry], i, initial, max, banned)
    {
      SincePrefix(log, entry, i);
      assert (log + [entry])[i] == log[i];
    }
  }

  /** Whatever pass comes next: one that waits leaves the doubled delay, one that does not leaves a good log. */
  lemma {:induction false} EntryIsRecorded(config: Config, hasReady: bool, passes: seq<Pass>, log: seq<PassLog>,
                                           entry: PassLog,
                        initial: real, max: real, banned: real, delay: real)
    requires Recorded(config, hasReady, passes, log, initial, max, banned, delay) && |log| < |passes|
    requires PassOk(config, hasReady, passes[|log|], entry) && WaitDecided(config, hasReady, passes[|log|], entry)
    requires |log| > 0 ==> (!entry.tried <==> LeavesOpen(hasReady, passes[|log| - 1], log[|log| - 1]))
    requires entry.wait.Some? ==> WaitFits(entry, delay, initial, banned)
    ensures LogOk(config, hasReady, passes, log + [entry])
    ensures AllButLastWait(log + [entry], initial, max, banned)
    ensures entry.wait.Some? ==>
              Recorded(config, hasReady, passes, log + [entry], initial, max, banned,
                       Backoff.Min(max, StartOf(entry, delay, initial) * 2.0))
  {
    LogGrows(config, hasReady, passes, log, entry);
    EarlierWaitsKept(log, entry, initial, max, banned);
    SinceOfNext(log, entry);
  }

  // ----- What decides, answer by answer -----

  /** Start succeeds exactly when all goes well, but the nickname alone may be refused. */
  lemma {:induction false} SucceedsIff(config: Config, attempt: Attempt)
    ensures var u := if config.serverId.Some? || config.serverPort.Some? then 1 else 0;
            Succeeds(config, attempt) <==>
              && attempt.transportOk && attempt.greetingOk
              && forall i :: 0 <= i < |SetupSteps(config)| ==>
                   || AnswerAt(attempt.answers, i) == Accepted
                   || (config.nickname.Some? && i == u && AnswerAt(attempt.answers, i).Refused?)
  {
    var u := if config.serverId.Some? || config.serverPort.Some? then 1 else 0;
    forall i | 0 <= i < |SetupSteps(config)|
      ensures SetupSteps(config)[i].mayBeRefused <==> config.nickname.Some? && i == u
    {
    }
  }

  /**
   The answer at which setup stops decides what the loop does: a cancellation ends it, and the other
   failures make it wait, a banned one for the banned delay.
   */
  lemma {:induction false} WaitFollowsAnswer(config: Config, hasReady: bool, pass: Pass, entry: PassLog, k: nat)
    requires PassOk(config, hasReady, pass, entry) && WaitDecided(config, hasReady, pass, entry) && entry.tried
    requires pass.attempt.transportOk && pass.attempt.greetingOk && k < |SetupSteps(config)|
    requires AllTolerated(SetupSteps(config)[..k], pass.attempt.answers)
    requires !Tolerated(SetupSteps(config)[k], AnswerAt(pass.attempt.answers, k)) && !pass.stopsMeanwhile
    ensures !entry.started
    ensures match AnswerAt(pass.attempt.answers, k)
            case Accepted => false
            case Refused(banned) => entry.wait.Some? && entry.wait.value.banned == banned
            case Lost(_, banned) => entry.wait.Some? && entry.wait.value.banned == banned
            case Late(banned) => entry.wait.Some? && entry.wait.value.banned == banned
            case Interrupted(_) => entry.wait.None?
  {
    FirstStopIs(SetupSteps(config), pass.attempt.answers, 0, k);
    StartErrorIffNot(config, pass.attempt);
  }

  /** So does an attempt that does not come to its setup, and an `on_ready` that raises. */
  lemma {:induction false} WaitFollowsFailure(config: Config, hasReady: bool, pass: Pass, entry: PassLog)
    requires PassOk(config, hasReady, pass, entry) && WaitDecided(config, hasReady, pass, entry) && !pass.stopsMeanwhile
    ensures entry.tried && (!pass.attempt.transportOk || !pass.attempt.greetingOk) ==>
              && !entry.started
              && (if pass.attempt.failure.cancelled then entry.wait.None?
                  else entry.wait.Some? && entry.wait.value.banned == pass.attempt.failure.banned)
    ensures entry.started && hasReady && pass.readyFails.Some? ==>
              if pass.readyFails.value.cancelled then entry.wait.None?
              else entry.wait.Some? && entry.wait.value.banned == pass.readyFails.value.banned
    ensures entry.started && (!hasReady || pass.readyFails.None?) ==> entry.wait.Some? && !entry.wait.value.banned
    ensures !entry.tried ==> entry.wait.Some? && !entry.wait.value.banned
  {
  }

  /** The passes that a delay counts: back to the last start that succeeded, or to the first pass. */
  lemma {:induction false} SinceIs(log: seq<PassLog>, i: nat)
    requires i < |log|
    ensures var k := Since(log, i);
            k <= i && (k == i || log[i - k].started) && forall j :: i - k < j <= i ==> !log[j].started
  {
    if log[i].started || i == 0 {
    } else {
      SinceIs(log, i - 1);
    }
  }

  class Client {
    const config: Config
    var conn: Connection?
    var stopping: bool

    constructor (config: Config)
      ensures this.config == config && conn == null && !stopping
    {
      this.config, conn, stopping := config, null, false;
    }

    /** One setup command; the failure, if it is not tolerated. */
    method Do(c: Connection, ghost steps: seq<SetupStep>, k: nat, step: SetupStep) returns (failure: Option<Failure>)
      requires k < |steps| && steps[k] == step && SetUpTo(c, steps, k)
      modifies c
      ensures failure.None? ==> SetUpTo(c, steps, k + 1)
      ensures failure.Some? ==> StoppedAt(c, steps, k, failure.value)
    {
      var a := c.Exec(step.command);
      assert CommandsOf(steps)[..k + 1] == CommandsOf(steps)[..k] + [step.command];
      if a.Accepted? || (step.mayBeRefused && a.Refused?) {
        assert forall i :: 0 <= i < k ==> steps[..k + 1][i] == steps[..k][i];
        return None;
      }
      return Some(FailureOf(a));
    }

    /** `use`, by id or by port, or not at all. */
    method SelectServer(c: Connection, ghost steps: seq<SetupStep>) returns (failure: Option<Failure>)
      requires SetUpTo(c, steps, 0) && UseSteps(config) <= steps
      modifies c
      ensures failure.None? ==> SetUpTo(c, steps, |UseSteps(config)|)
      ensures failure.Some? ==> StoppedAt(c, steps, 0, failure.value)
    {
      failure := None;
      if config.serverId.Some? {
        failure := Do(c, steps, 0, SetupStep(UseById(config.serverId.value), false));
      } else if config.serverPort.Some? {
        failure := Do(c, steps, 0, SetupStep(UseByPort(config.serverPort.value), false));
      }
    }

    /** The nickname is cosmetic: the server may refuse it. */
    method ApplyNickname(c: Connection, ghost steps: seq<SetupStep>, k: nat) returns (failure: Option<Failure>)
      requires SetUpTo(c, steps, k) && k + |NicknameSteps(config)| <= |steps|
      requires steps[k..k + |NicknameSteps(config)|] == NicknameSteps(config)
      modifies c
      ensures failure.None? ==> SetUpTo(c, steps, k + |NicknameSteps(config)|)
      ensures failure.Some? ==> StoppedAt(c, steps, k, failure.value)
    {
      failure := None;
      if config.nickname.Some? {
        assert steps[k] == steps[k..k + |NicknameSteps(config)|][0];
        failure := Do(c, steps, k, SetupStep(SetNickname(config.nickname.value), true));
      }
    }

    method RegisterEvents(c: Connection, ghost steps: seq<SetupStep>, k: nat)
      returns (failure: Option<Failure>, ghost at: nat)
      requires SetUpTo(c, steps, k) && steps[k..] == RegisterAll(config.registrations)
      modifies c
      ensures failure.None? ==> SetUpTo(c, steps, |steps|)
      ensures failure.Some? ==> StoppedAt(c, steps, at, failure.value)
    {
      at := k;
      for i := 0 to |config.registrations|
        invariant SetUpTo(c, steps, k + i)
      {
        at := k + i;
        assert steps[k + i] == steps[k..][i];
        failure := Do(c, steps, k + i, SetupStep(Register(config.registrations[i]), false));
        if failure.Some? {
          return;
        }
      }
      return None, at;
    }

    /** The body of the `try` in `start`. */
    method SetUp(c: Connection) returns (failure: Option<Failure>, ghost at: nat)
      requires SetUpTo(c, SetupSteps(config), 0)
      modifies c
      ensures failure.None? ==> SetUpTo(c, SetupSteps(config), |SetupSteps(config)|)
      ensures failure.Some? ==> StoppedAt(c, SetupSteps(config), at, failure.value)
    {
      ghost var steps := SetupSteps(config);
      var used, named := |UseSteps(config)|, |NicknameSteps(config)|;
      at := 0;
      failure := SelectServer(c, steps);
      if failure.Some? {
        return;
      }
      at := used;
      assert steps[used..used + named] == NicknameSteps(config);
      failure := ApplyNickname(c, steps, used);
      if failure.Some? {
        return;
      }
      assert steps[used + named..] == RegisterAll(config.registrations);
      failure, at := RegisterEvents(c, steps, used + named);
    }

    /**
     `start` is a transaction: it succeeds exactly when the transport, the greeting and every setup
     command went well, with only a refused nickname tolerated, and then the connection has written
     the setup and nothing else. Otherwise the new connection is closed, has written the setup up to
     the command that failed, and the client keeps the connection it had.
     */
    method Start(attempt: Attempt) returns (failure: Option<Failure>, made: Connection?)
      modifies this`conn
      ensures failure.None? <==> Succeeds(config, attempt)
      ensures failure == StartError(config, attempt)
      ensures made == null <==> !attempt.transportOk
      ensures made != null ==> fresh(made)
      ensures failure.None? ==> conn == made && made.trace == CommandsOf(SetupSteps(config))
      ensures failure.None? ==> made.closed == attempt.dropsEarly
      ensures failure.Some? ==> conn == old(conn)
      ensures failure.Some? && made != null ==> made.closed
      ensures attempt.transportOk && !attempt.greetingOk ==> made.trace == []
      ensures var steps, k := SetupSteps(config), FirstStop(SetupSteps(config), attempt.answers, 0);
              attempt.transportOk && attempt.greetingOk && k < |steps| ==>
                made.trace == CommandsOf(steps)[..WrittenUpTo(attempt.answers, k)]
    {
      if !attempt.transportOk {
        return Some(attempt.failure), null;
      }
      made := new Connection(attempt.answers);
      if !attempt.greetingOk {
        made.Close();
        return Some(attempt.failure), made;
      }
      ghost var steps, at := SetupSteps(config), 0;
      StartErrorIffNot(config, attempt);
      failure, at := SetUp(made);
      if failure.Some? {
        made.Close();
        FirstStopIs(steps, attempt.answers, 0, at);
        return;
      }
      FirstStopIs(steps, attempt.answers, 0, |steps|);
      assert CommandsOf(steps)[..|steps|] == CommandsOf(steps) && steps[..|steps|] == steps;
      if attempt.dropsEarly {
        made.Close();
      }
      conn := made;
    }

    /** `close`: stop the loop, and close the connection the client has. */
    method Close()
      modifies this`stopping, conn
      ensures stopping && (conn != null ==> conn.closed)
    {
      stopping := true;
      if conn != null {
        conn.Close();
      }
    }

    /** One pass of the reconnect loop up to its wait: what happened, and the error it ended with. */
    method OnePass(pass: Pass, hasReady: bool) returns (entry: PassLog, error: Option<Failure>)
      modifies this`conn, conn
      ensures entry.tried <==> old(conn == null || conn.closed)
      ensures PassOk(config, hasReady, pass, entry) && entry.wait.None?
      ensures conn == old(conn) || fresh(conn)
      ensures error == PassError(config, hasReady, pass, entry)
      ensures StillOpen(conn) <==> entry.started && hasReady && pass.readyFails.Some? && !pass.attempt.dropsEarly
    {
      entry, error := PassLog(false, false, 0, None), None;
      if conn == null || conn.closed {
        var made: Connection?;
        error, made := Start(pass.attempt);
        entry := PassLog(true, error.None?, 0, None);
        if error.None? && hasReady {
          entry := entry.(readyCalls := 1);
          error := pass.readyFails;
        }
      }
      if error.None? {
        conn.Close();   // the events only end when the connection has closed
      }
    }

    /** The wait between two passes: the connection may drop meanwhile. */
    method Sleep(pass: Pass)
      modifies conn
      ensures StillOpen(conn) <==> old(StillOpen(conn)) && !pass.dropsInSleep
    {
      if pass.dropsInSleep && conn != null {
        conn.Close();
      }
    }

    /** A whole pass of the loop: it ends the loop, or waits and doubles the delay. */
    method OneRound(pass: Pass, hasReady: bool, delay: real, initial: real, max: real, banned: real)
      returns (entry: PassLog, next: real)
      modifies this, conn
      ensures entry.tried <==> old(!StillOpen(conn))
      ensures PassOk(config, hasReady, pass, entry) && WaitDecided(config, hasReady, pass, entry)
      ensures stopping == if entry.wait.Some? then pass.stopsInSleep else pass.stopsMeanwhile
      ensures conn == old(conn) || fresh(conn)
      ensures entry.wait.Some? ==>
                && WaitFits(entry, delay, initial, banned)
                && next == Backoff.Min(max, StartOf(entry, delay, initial) * 2.0)
      ensures entry.wait.Some? ==> (StillOpen(conn) <==> LeavesOpen(hasReady, pass, entry))
    {
      var error;
      entry, error := OnePass(pass, hasReady);
      next := if entry.started then initial else delay;
      if (error.Some? && error.value.cancelled) || pass.stopsMeanwhile {
        stopping := pass.stopsMeanwhile;
        return;
      }
      var isBanned := error.Some? && error.value.banned;
      entry := entry.(wait := Some(Wait(isBanned, if isBanned then banned else next)));
      Sleep(pass);
      next := Backoff.Min(max, next * 2.0);
      stopping := pass.stopsInSleep;
    }

    /**
     `run_forever` over any sequence of passes. A start is tried exactly when there is no open
     connection, which is always except after an `on_ready` that raised; `on_ready` runs exactly once
     for each start that succeeds; the loop ends exactly on a cancellation or a `close`; and the wait
     is the banned delay after a banned error and the backoff delay otherwise, whose doubling counts
     every pass, banned or not, since the last start that succeeded.
     */
    method RunForever(passes: seq<Pass>, hasReady: bool, initial: real, max: real, banned: real)
      returns (log: seq<PassLog>)
      modifies this, conn
      ensures |log| <= |passes| && (old(stopping) ==> log == [])
      ensures |log| < |passes| ==> stopping || (|log| > 0 && log[|log| - 1].wait.None?)
      ensures forall i :: 0 <= i < |log| - 1 ==> !passes[i].stopsInSleep
      ensures |log| > 0 ==> (log[0].tried <==> old(!StillOpen(conn)))
      ensures LogOk(config, hasReady, passes, log)
      ensures AllButLastWait(log, initial, max, banned)
    {
      var delay := initial;
      log := [];
      while !stopping && |log| < |passes|
        invariant conn == old(conn) || fresh(conn)
        invariant |log| > 0 ==> (log[0].tried <==> old(!StillOpen(conn)))
        invariant |log| <= |passes|
        invariant if |log| == 0 then stopping == old(stopping) else !old(stopping)
        invariant |log| > 0 ==> stopping == passes[|log| - 1].stopsInSleep
        invariant forall i :: 0 <= i < |log| - 1 ==> !passes[i].stopsInSleep
        invariant Recorded(config, hasReady, passes, log, initial, max, banned, delay)
        invariant StillOpen(conn) <==> if |log| == 0 then old(StillOpen(conn))
                                       else LeavesOpen(hasReady, passes[|log| - 1], log[|log| - 1])
        decreases |passes| - |log|
      {
        ghost var before, delayBefore := log, delay;
        var entry;
        entry, delay := OneRound(passes[|log|], hasReady, delay, initial, max, banned);
        log := log + [entry];
        EntryIsRecorded(config, hasReady, passes, before, entry, initial, max, banned, delayBefore);
        if entry.wait.None? {
          return;
        }
      }
    }
  }
}
